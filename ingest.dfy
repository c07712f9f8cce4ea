/**
 * `ingest_document` (src/interface/handlers/ingest.rs): the multipart upload is read field by
 * field; each "file" field is turned into text (images described, audio transcribed, documents
 * transmuted) and each non-blank "content" field is taken verbatim; the text gathered is handed
 * to the graph ingestion only if some field contributed and it is longer than five bytes.
 * Progress is reported as a sequence of messages, the stream the client reads.
 */
module Ingest {
  import opened Wrappers
  import opened Text
  import opened Errors
  import Utf8

  /** One multipart field: its name, its file name, and what reading it as bytes, or as text,
      gives. */
  datatype Field = Field(name: Option<string>, fileName: Option<string>,
                         bytes: Result<seq<Utf8.Byte>, string>, text: Result<string, string>)

  /** The ingestion service's run: the progress it reports and how it ends. */
  datatype IngestReport = IngestReport(progress: seq<string>, outcome: Result<(), AppError>)

  /** The collaborators: MIME guessing from the file name, the vision and audio models, the
      document transmuter, and the graph ingestion. */
  datatype Services = Services(
    mimeOf: string -> string,
    describeImage: (seq<Utf8.Byte>, string) -> Result<string, string>,
    transcribeAudio: (seq<Utf8.Byte>, string) -> Result<string, string>,
    transmute: (string, seq<Utf8.Byte>) -> Result<string, string>,
    ingest: string -> IngestReport)

  const FileField := "file"
  const ContentField := "content"
  const DefaultFileName := "archivo.bin"
  const MinBytes := 5

  const FileNote := "\U{1F4C2} Archivo: "
  const ImageNote := "\U{1F441}\U{FE0F} Imagen detectada. Analizando..."
  const AudioNote := "\U{1F442} Audio detectado. Transcribiendo..."
  const DocumentNote := "\U{1F4C4} Extrayendo texto..."
  const ExtractedNote := "\U{2705} Contenido extra\U{00ED}do."
  const Failure := "\U{274C} "
  const UploadFailure := "\U{274C} Error Subida: "
  const IngestingNote := "\U{1F9E0} Ingestando en Grafo..."
  const GraphFailure := "\U{274C} Error GraphRAG: "
  const NothingValid := "\U{274C} Sin contenido v\U{00E1}lido."
  const Done := "DONE"

  // ----- one file -----

  /** The text of one uploaded file, chosen by the MIME type guessed from its name, and the
      note announcing which path it takes. */
  function Process(services: Services, filename: string, data: seq<Utf8.Byte>): (seq<string>, Result<string, string>) {
    var mime := services.mimeOf(filename);
    if StartsWith(mime, "image/") then
      ([ImageNote], match services.describeImage(data, mime)
         case Ok(d) => Ok("--- [IMG: " + filename + "] ---\n" + d + "\n---")
         case Err(e) => Err("Error Visi\U{00F3}n: " + e))
    else if StartsWith(mime, "audio/") then
      ([AudioNote], match services.transcribeAudio(data, filename)
         case Ok(t) => Ok("--- [AUDIO: " + filename + "] ---\n" + t + "\n---")
         case Err(e) => Err("Error Audio: " + e))
    else
      ([DocumentNote], match services.transmute(filename, data)
         case Ok(t) => Ok(t)
         case Err(e) => Err("Error Formato: " + e))
  }

  /** Images and audio are framed with their file name; documents come through as extracted. */
  lemma ProcessRouting(services: Services, filename: string, data: seq<Utf8.Byte>)
    ensures var mime := services.mimeOf(filename);
      var (notes, r) := Process(services, filename, data);
      |notes| == 1 &&
      (StartsWith(mime, "image/") && r.Ok? ==>
         r.value == "--- [IMG: " + filename + "] ---\n" + services.describeImage(data, mime).value + "\n---") &&
      (!StartsWith(mime, "image/") && StartsWith(mime, "audio/") && r.Ok? ==>
         r.value == "--- [AUDIO: " + filename + "] ---\n" + services.transcribeAudio(data, filename).value + "\n---") &&
      (!StartsWith(mime, "image/") && !StartsWith(mime, "audio/") ==>
         (r.Ok? <==> services.transmute(filename, data).Ok?) &&
         (r.Ok? ==> r.value == services.transmute(filename, data).value))
    ensures var mime := services.mimeOf(filename);
      Process(services, filename, data).1.Ok? <==>
        (if StartsWith(mime, "image/") then services.describeImage(data, mime).Ok?
         else if StartsWith(mime, "audio/") then services.transcribeAudio(data, filename).Ok?
         else services.transmute(filename, data).Ok?)
  {
  }

  // ----- the fold over the fields -----

  /** What has been gathered so far: the text, whether any field contributed, and the messages
      sent. */
  datatype Gathered = Gathered(content: string, found: bool, messages: seq<string>)

  /** Blank text: only whitespace. */
  predicate IsBlank(s: string) {
    Trim(s) == []
  }

  /** What one field adds. */
  function Step(services: Services, g: Gathered, f: Field): Gathered {
    var name := f.name.GetOr("");
    if name == FileField then
      var filename := f.fileName.GetOr(DefaultFileName);
      var announced := g.messages + [FileNote + filename];
      match f.bytes
      case Err(e) => Gathered(g.content, g.found, announced + [UploadFailure + e])
      case Ok(data) =>
        var (notes, r) := Process(services, filename, data);
        match r
        case Ok(text) => Gathered(g.content + text + "\n\n", true, announced + notes + [ExtractedNote])
        case Err(e) => Gathered(g.content, g.found, announced + notes + [Failure + e])
    else if name == ContentField then
      if f.text.Ok? && !IsBlank(f.text.value) then Gathered(g.content + f.text.value, true, g.messages)
      else g
    else g
  }

  /** The fields read so far, in order. */
  function Gather(services: Services, fields: seq<Field>): Gathered {
    if fields == [] then Gathered("", false, [])
    else Step(services, Gather(services, fields[..|fields| - 1]), fields[|fields| - 1])
  }

  /** A field contributes text when it is a file that was read and turned into text, or
      non-blank content. */
  predicate Contributes(services: Services, f: Field) {
    var name := f.name.GetOr("");
    (name == FileField && f.bytes.Ok? && Process(services, f.fileName.GetOr(DefaultFileName), f.bytes.value).1.Ok?) ||
    (name == ContentField && f.text.Ok? && !IsBlank(f.text.value))
  }

  /** Fields of any other name, unreadable content and blank content add nothing and send
      nothing; a contributing field extends the text and sets the flag; a file that fails
      keeps the text and the flag. */
  lemma StepEffect(services: Services, g: Gathered, f: Field)
    ensures f.name.GetOr("") != FileField && f.name.GetOr("") != ContentField ==> Step(services, g, f) == g
    ensures Contributes(services, f) ==> Step(services, g, f).found && |Step(services, g, f).content| > |g.content|
    ensures !Contributes(services, f) ==> Step(services, g, f).content == g.content && Step(services, g, f).found == g.found
    ensures StartsWith(Step(services, g, f).content, g.content)
    ensures g.messages <= Step(services, g, f).messages
  {
    var s := Step(services, g, f);
    assert s.content[..|g.content|] == g.content;
    assert s.messages[..|g.messages|] == g.messages;
  }

  /** The flag says exactly whether some field contributed. */
  lemma {:induction false} FoundIffContributed(services: Services, fields: seq<Field>)
    ensures Gather(services, fields).found <==> exists i :: 0 <= i < |fields| && Contributes(services, fields[i])
  {
    if fields != [] {
      var init := fields[..|fields| - 1];
      var last := fields[|fields| - 1];
      FoundIffContributed(services, init);
      StepEffect(services, Gather(services, init), last);
      if Gather(services, init).found {
        var i :| 0 <= i < |init| && Contributes(services, init[i]);
        assert fields[i] == init[i];
      }
      if exists i :: 0 <= i < |fields| && Contributes(services, fields[i]) {
        var i :| 0 <= i < |fields| && Contributes(services, fields[i]);
        if i < |init| {
          assert init[i] == fields[i];
        }
      }
    }
  }

  /** The gathered text only grows: the text after some fields is a prefix of the text after
      all of them. */
  lemma {:induction false} GatherExtends(services: Services, fields: seq<Field>, k: nat)
    requires k <= |fields|
    ensures StartsWith(Gather(services, fields).content, Gather(services, fields[..k]).content)
    decreases |fields|
  {
    if k < |fields| {
      var init := fields[..|fields| - 1];
      assert fields[..k] == init[..k];
      GatherExtends(services, init, k);
      StepEffect(services, Gather(services, init), fields[|fields| - 1]);
    } else {
      assert fields[..k] == fields;
    }
  }

  // ----- the gate -----

  /** Whether the gathered text goes to the graph: some field contributed and it is longer than
      five bytes. */
  predicate Ingestible(g: Gathered) {
    g.found && Utf8.ByteLen(g.content) > MinBytes
  }

  /** The closing messages. */
  function Finish(services: Services, g: Gathered): seq<string> {
    if Ingestible(g) then
      var report := services.ingest(g.content);
      [IngestingNote] + report.progress +
        (match report.outcome case Err(e) => [GraphFailure + Display(e)] case Ok(_) => [Done])
    else [NothingValid]
  }

  /** The upload ends with "DONE" exactly when the text was ingested and the ingestion
      succeeded; text that is not ingestible ends with the refusal, and a failed ingestion with
      its error. */
  lemma FinishOutcome(services: Services, g: Gathered)
    ensures |Finish(services, g)| > 0
    ensures var last := Finish(services, g)[|Finish(services, g)| - 1];
      (last == Done <==> Ingestible(g) && services.ingest(g.content).outcome.Ok?) &&
      (last == NothingValid <==> !Ingestible(g)) &&
      (Ingestible(g) && services.ingest(g.content).outcome.Err? ==>
         last == GraphFailure + Display(services.ingest(g.content).outcome.error))
  {
    var f := Finish(services, g);
    var last := f[|f| - 1];
    if Ingestible(g) {
      assert last != NothingValid by {
        if services.ingest(g.content).outcome.Err? {
          assert last[2] != NothingValid[2];
        } else {
          assert |last| != |NothingValid|;
        }
      }
    } else {
      assert |last| != |Done|;
    }
  }

  /** Five or fewer bytes are never ingested, whatever came in. */
  lemma ShortTextNotIngested(services: Services, fields: seq<Field>)
    requires Utf8.ByteLen(Gather(services, fields).content) <= MinBytes
    ensures Finish(services, Gather(services, fields)) == [NothingValid]
  {
  }

  // ----- the handler -----

  /** One file field, read and turned into text. */
  method ProcessFile(services: Services, filename: string, data: seq<Utf8.Byte>) returns (notes: seq<string>, r: Result<string, string>)
    ensures (notes, r) == Process(services, filename, data)
  {
    var mime := services.mimeOf(filename);
    if StartsWith(mime, "image/") {
      notes := [ImageNote];
      var d := services.describeImage(data, mime);
      r := if d.Ok? then Ok("--- [IMG: " + filename + "] ---\n" + d.value + "\n---") else Err("Error Visi\U{00F3}n: " + d.error);
    } else if StartsWith(mime, "audio/") {
      notes := [AudioNote];
      var t := services.transcribeAudio(data, filename);
      r := if t.Ok? then Ok("--- [AUDIO: " + filename + "] ---\n" + t.value + "\n---") else Err("Error Audio: " + t.error);
    } else {
      notes := [DocumentNote];
      var t := services.transmute(filename, data);
      r := if t.Ok? then Ok(t.value) else Err("Error Formato: " + t.error);
    }
  }

  /** `ingest_document`: the messages sent to the client, in order, and the text handed to the
      graph ingestion, if any. */
  method IngestDocument(services: Services, fields: seq<Field>) returns (messages: seq<string>, ingested: Option<string>)
    ensures var g := Gather(services, fields);
      messages == g.messages + Finish(services, g) &&
      ingested == if Ingestible(g) then Some(g.content) else None
  {
    var finalContent := "";
    var contentFound := false;
    messages := [];
    var i := 0;
    while i < |fields|
      invariant i <= |fields|
      invariant Gathered(finalContent, contentFound, messages) == Gather(services, fields[..i])
    {
      var field := fields[i];
      var name := field.name.GetOr("");
      if name == FileField {
        var filename := field.fileName.GetOr(DefaultFileName);
        messages := messages + [FileNote + filename];
        if field.bytes.Ok? {
          var notes, result := ProcessFile(services, filename, field.bytes.value);
          messages := messages + notes;
          if result.Ok? {
            finalContent := finalContent + result.value + "\n\n";
            contentFound := true;
            messages := messages + [ExtractedNote];
          } else {
            messages := messages + [Failure + result.error];
          }
        } else {
          messages := messages + [UploadFailure + field.bytes.error];
        }
      } else if name == ContentField {
        if field.text.Ok? && !IsBlank(field.text.value) {
          finalContent := finalContent + field.text.value;
          contentFound := true;
        }
      }
      assert fields[..i + 1][..i] == fields[..i];
      i := i + 1;
    }
    assert fields[..i] == fields;
    if contentFound && Utf8.ByteLen(finalContent) > MinBytes {
      messages := messages + [IngestingNote];
      var report := services.ingest(finalContent);
      messages := messages + report.progress;
      if report.outcome.Err? {
        messages := messages + [GraphFailure + Display(report.outcome.error)];
      } else {
        messages := messages + [Done];
      }
      ingested := Some(finalContent);
    } else {
      messages := messages + [NothingValid];
      ingested := None;
    }
  }
}
