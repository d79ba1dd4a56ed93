/**
 * The `POST /api/analyze-document` handler: an uploaded PDF or DOCX file is
 * checked, its text is extracted by a library, and the text is truncated
 * and trimmed for the caller.
 *
 * The identity provider, the two extraction libraries and form parsing are
 * foreign: their results are parameters of `Analyze`.
 */
module AnalyzeDocument {
  import opened Wrappers
  import opened JsValues
  import opened JsText
  import Cascade

  /** What `formData.get("file")` produced. */
  datatype FormEntry =
    | Missing                                 // no `file` field
    | TextField(value: string)                // a plain string field, not a Blob
    | Blob(mimeType: string, size: nat)       // an uploaded file: declared type and byte size

  /**
   * How an extraction library (`pdf-parse` or `mammoth`) answered.
   * `Threw(Some(m))`: it threw an `Error` with message `m`; `Threw(None)`:
   * it threw something that is not an `Error`. `Returned(None)`: it resolved
   * with no result or with a result lacking its text field.
   */
  datatype LibraryReply =
    | Threw(message: Option<string>)
    | Returned(text: Option<Text>)

  /** The library the handler dispatches to. */
  datatype Extractor = PdfParse | Mammoth

  /** The handler's answer: a plain-text response, or the success JSON (HTTP 200, `status: 'success'`). */
  datatype DocReply =
    | Plain(code: nat, message: string)
    | Analysis(content: Text, fileType: string, contentLength: nat)
  {
    function Status(): nat {
      match this
      case Plain(code, _) => code
      case Analysis(_, _, _) => 200
    }
  }

  const MaxFileSize: nat := 10 * 1024 * 1024
  const MaxTextLength: nat := 4000
  /** The marker appended to truncated text: `"..."`. */
  const Ellipsis: Text := [0x2E, 0x2E, 0x2E]

  /** The Office Open XML word-processing MIME type. */
  const OpenXmlWordType: string := "application/vnd.openxmlformats-" + "officedocument.wordprocessingml" + ".document"
  const PdfTypes: seq<string> := ["application/pdf", "application/x-pdf"]
  const DocxTypes: seq<string> := [OpenXmlWordType, "application/docx"]
  /** The whitelist flattened in declaration order, PDF entries first. */
  const AcceptedTypes: seq<string> := PdfTypes + DocxTypes

  const Unauthorized: DocReply := Plain(401, "Unauthorized")
  const InvalidFile: DocReply := Plain(400, "Invalid file format")
  const TooLarge: DocReply := Plain(400, "File too large. Maximum size is 10MB")
  const NoText: DocReply := Plain(400, "Could not extract text from file - file may be empty or corrupted")

  function UnsupportedType(fileType: string): DocReply {
    Plain(400, "Unsupported file type. Accepted types are PDF and DOCX. Received: " + fileType)
  }

  /** The 500 the inner `catch` returns for a failure while processing the content. */
  function ProcessingError(message: string): DocReply {
    Plain(500, "Error processing file content: " + message)
  }

  /** Every whitelist entry is already lower case, so lower-casing an input can reach each of them. */
  lemma WhitelistIsLowerCase()
    ensures forall w :: w in AcceptedTypes ==> NoAsciiUpper(w)
  {
  }

  /** No MIME type is on both the PDF and the DOCX list. */
  lemma WhitelistsDisjoint()
    ensures forall w :: w in PdfTypes ==> w !in DocxTypes
  {
  }

  /** The lower-cased declared type of a blob; the empty string for anything else. */
  function FileTypeOf(file: FormEntry): string {
    if file.Blob? then ToLowerAscii(file.mimeType) else ""
  }

  /** The whitelist test is case-insensitive: it accepts exactly the types equal to an entry up to ASCII case. */
  lemma AcceptedIgnoringCase(mimeType: string)
    ensures ToLowerAscii(mimeType) in AcceptedTypes
        <==> exists w :: w in AcceptedTypes && EqualIgnoringAsciiCase(mimeType, w)
  {
    WhitelistIsLowerCase();
    forall w | w in AcceptedTypes {
      ToLowerAsciiMatches(mimeType, w);
    }
  }

  /** `"APPLICATION/PDF"` passes the whitelist, as `"application/pdf"`. */
  lemma UpperCasePdfAccepted()
    ensures ToLowerAscii("APPLICATION/PDF") == "application/pdf"
    ensures ToLowerAscii("APPLICATION/PDF") in AcceptedTypes
  {
  }

  /** The `if / else if` dispatch: PDF types go to `pdf-parse`, DOCX types to `mammoth`, others nowhere. */
  function ExtractorFor(fileType: string): (r: Option<Extractor>)
    ensures r == Some(PdfParse) <==> fileType in PdfTypes
    ensures r == Some(Mammoth) <==> fileType in DocxTypes
    ensures r.None? <==> fileType !in AcceptedTypes
  {
    WhitelistsDisjoint();
    if fileType in PdfTypes then Some(PdfParse)
    else if fileType in DocxTypes then Some(Mammoth)
    else None
  }

  /**
   * One library call and its guard: a throw, a missing result or a falsy
   * (missing or empty) text all fail with the error's message.
   */
  function LibraryText(reply: LibraryReply, failure: string): (r: Result<Text, string>)
    ensures r.Success? <==> reply.Returned? && reply.text.Some? && reply.text.value != []
    ensures r.Success? ==> r.value == reply.text.value
    ensures reply.Returned? && r.Failure? ==> r.error == failure
    ensures reply.Threw? ==> r == Failure(reply.message.GetOr("Unknown error"))
  {
    match reply
    case Threw(m) => Failure(m.GetOr("Unknown error"))
    case Returned(None) => Failure(failure)
    case Returned(Some(t)) => if t == [] then Failure(failure) else Success(t)
  }

  /** The text the dispatched library produced; the initial `""` when no branch ran. */
  function ExtractText(extractor: Option<Extractor>, pdfReply: LibraryReply, docxReply: LibraryReply): (r: Result<Text, string>)
    ensures extractor.None? ==> r == Success([])
    ensures extractor.Some? && r.Success? ==> r.value != []
    ensures extractor == Some(PdfParse) ==> r == LibraryText(pdfReply, "Failed to extract text from PDF")
    ensures extractor == Some(Mammoth) ==> r == LibraryText(docxReply, "Failed to extract text from DOCX")
  {
    match extractor
    case None => Success([])
    case Some(PdfParse) => LibraryText(pdfReply, "Failed to extract text from PDF")
    case Some(Mammoth) => LibraryText(docxReply, "Failed to extract text from DOCX")
  }

  /** Caps text at `MaxTextLength` code units, marking a cut with `"..."`. */
  function Truncate(t: Text): (r: Text)
    ensures |r| <= MaxTextLength + |Ellipsis|
    ensures |t| <= MaxTextLength ==> r == t
    ensures |t| > MaxTextLength ==> |r| == MaxTextLength + |Ellipsis|
    ensures |t| > MaxTextLength ==> r[..MaxTextLength] == t[..MaxTextLength] && r[MaxTextLength..] == Ellipsis
  {
    if |t| > MaxTextLength then t[..MaxTextLength] + Ellipsis else t
  }

  /** Truncating already truncated text changes nothing. */
  lemma TruncateIdempotent(t: Text)
    ensures Truncate(Truncate(t)) == Truncate(t)
  {
  }

  /** Truncation never turns text with visible content into whitespace only. */
  lemma TruncateKeepsContent(t: Text)
    requires !AllTrimmable(t)
    ensures !AllTrimmable(Truncate(t))
  {
    if |t| > MaxTextLength {
      var r := Truncate(t);
      assert r[MaxTextLength] == 0x2E;
    }
  }

  /**
   * The inner `try` block (extraction, the empty-text guard, truncation and
   * trimming) for a file whose lower-cased type is `fileType`.
   */
  function ProcessContent(fileType: string, pdfReply: LibraryReply, docxReply: LibraryReply): (r: DocReply)
    ensures r.Analysis? ==> 1 <= |r.content| <= r.contentLength <= MaxTextLength + |Ellipsis|
    ensures r.Analysis? ==> r.fileType == fileType
  {
    match ExtractText(ExtractorFor(fileType), pdfReply, docxReply)
    case Failure(message) => ProcessingError(message)
    case Success(text) =>
      if text == [] || Trim(text) == [] then NoText
      else
        var truncated := Truncate(text);
        TruncateKeepsContent(text);
        Analysis(Trim(truncated), fileType, |truncated|)
  }

  /** The handler. */
  function Analyze(userId: Option<string>, file: FormEntry, pdfReply: LibraryReply, docxReply: LibraryReply): (r: DocReply)
    ensures r.Status() == 401 <==> !SignedIn(userId)
    ensures r.Status() in {200, 400, 401, 500}
    ensures r.Analysis? ==> file.Blob? && file.size <= MaxFileSize && r.fileType in AcceptedTypes
    ensures r.Analysis? ==> 1 <= |r.content| <= r.contentLength <= MaxTextLength + |Ellipsis|
  {
    if !SignedIn(userId) then Unauthorized
    else if !file.Blob? then InvalidFile
    else
      var fileType := ToLowerAscii(file.mimeType);
      if fileType !in AcceptedTypes then UnsupportedType(fileType)
      else if file.size > MaxFileSize then TooLarge
      else ProcessContent(fileType, pdfReply, docxReply)
  }

  /** The guards before extraction, in the handler's order. */
  function IntakeChecks(userId: Option<string>, file: FormEntry): seq<Cascade.Check<DocReply>> {
    var fileType := FileTypeOf(file);
    [ Cascade.Check(SignedIn(userId), Unauthorized),
      Cascade.Check(file.Blob?, InvalidFile),
      Cascade.Check(fileType in AcceptedTypes, UnsupportedType(fileType)),
      Cascade.Check(!(file.Blob? && file.size > MaxFileSize), TooLarge) ]
  }

  /** The handler answers with the first failing intake guard, and reaches extraction only when all pass. */
  lemma AnalyzeIsFirstFailingCheck(userId: Option<string>, file: FormEntry, pdfReply: LibraryReply, docxReply: LibraryReply)
    ensures var first := Cascade.FirstFailure(IntakeChecks(userId, file));
      Analyze(userId, file, pdfReply, docxReply)
        == if first.Some? then first.value else ProcessContent(FileTypeOf(file), pdfReply, docxReply)
  {
    var checks := IntakeChecks(userId, file);
    if !SignedIn(userId) {
      Cascade.FirstFailureAt(checks, 0);
    } else if !file.Blob? {
      Cascade.FirstFailureAt(checks, 1);
    } else if FileTypeOf(file) !in AcceptedTypes {
      Cascade.FirstFailureAt(checks, 2);
    } else if file.size > MaxFileSize {
      Cascade.FirstFailureAt(checks, 3);
    }
  }

  /** Without a signed-in user the answer is 401, whatever the file and the libraries do. */
  lemma SignedOutIsUnauthorized(userId: Option<string>, file: FormEntry, pdfReply: LibraryReply, docxReply: LibraryReply)
    requires !SignedIn(userId)
    ensures Analyze(userId, file, pdfReply, docxReply) == Unauthorized
  {
  }

  /** A type off the whitelist is rejected as unsupported whatever its size: the type guard comes first. */
  lemma UnsupportedTypeIgnoresSize(userId: Option<string>, mimeType: string, size: nat, pdfReply: LibraryReply, docxReply: LibraryReply)
    requires SignedIn(userId)
    requires ToLowerAscii(mimeType) !in AcceptedTypes
    ensures Analyze(userId, Blob(mimeType, size), pdfReply, docxReply) == UnsupportedType(ToLowerAscii(mimeType))
  {
  }

  /** An accepted file is rejected as too large exactly when it exceeds 10 MiB; exactly 10 MiB passes. */
  lemma SizeBoundIsStrict(userId: Option<string>, mimeType: string, size: nat, pdfReply: LibraryReply, docxReply: LibraryReply)
    requires SignedIn(userId)
    requires ToLowerAscii(mimeType) in AcceptedTypes
    ensures Analyze(userId, Blob(mimeType, size), pdfReply, docxReply) == TooLarge <==> size > 10485760
  {
  }

  /** The library the handler consults for a file of lower-cased type `fileType`. */
  function ChosenReply(fileType: string, pdfReply: LibraryReply, docxReply: LibraryReply): LibraryReply {
    if fileType in PdfTypes then pdfReply else docxReply
  }

  /** A PDF never reaches `mammoth` and a DOCX never reaches `pdf-parse`: the other library's reply is irrelevant. */
  lemma ExtractorsAreDisjoint(userId: Option<string>, file: FormEntry, pdfReply: LibraryReply, docxReply: LibraryReply, other: LibraryReply)
    ensures FileTypeOf(file) in PdfTypes ==> Analyze(userId, file, pdfReply, docxReply) == Analyze(userId, file, pdfReply, other)
    ensures FileTypeOf(file) in DocxTypes ==> Analyze(userId, file, pdfReply, docxReply) == Analyze(userId, file, other, docxReply)
  {
  }

  /** An empty or missing extraction fails inside the inner `try`: a 500, not the empty-content 400. */
  lemma EmptyExtractionIsServerError(userId: Option<string>, mimeType: string, size: nat, pdfReply: LibraryReply, docxReply: LibraryReply)
    requires SignedIn(userId) && size <= MaxFileSize
    requires ToLowerAscii(mimeType) in AcceptedTypes
    requires ChosenReply(ToLowerAscii(mimeType), pdfReply, docxReply) in {Returned(None), Returned(Some([]))}
    ensures Analyze(userId, Blob(mimeType, size), pdfReply, docxReply).Status() == 500
    ensures Analyze(userId, Blob(mimeType, size), pdfReply, docxReply)
        == ProcessingError(if ToLowerAscii(mimeType) in PdfTypes then "Failed to extract text from PDF" else "Failed to extract text from DOCX")
  {
  }

  /** The empty-content 400 is returned exactly for non-empty text made of whitespace only. */
  lemma NoTextMeansWhitespaceOnly(userId: Option<string>, mimeType: string, size: nat, pdfReply: LibraryReply, docxReply: LibraryReply)
    requires SignedIn(userId) && size <= MaxFileSize
    requires ToLowerAscii(mimeType) in AcceptedTypes
    ensures var reply := ChosenReply(ToLowerAscii(mimeType), pdfReply, docxReply);
      (Analyze(userId, Blob(mimeType, size), pdfReply, docxReply) == NoText)
        <==> (reply.Returned? && reply.text.Some? && reply.text.value != [] && AllTrimmable(reply.text.value))
  {
  }

  /** On success the content is the trimmed, possibly truncated, extracted text, and the length is taken before trimming. */
  lemma SuccessIsTrimmedTruncation(userId: Option<string>, file: FormEntry, pdfReply: LibraryReply, docxReply: LibraryReply)
    ensures var r := Analyze(userId, file, pdfReply, docxReply);
      var reply := ChosenReply(FileTypeOf(file), pdfReply, docxReply);
      r.Analysis? ==>
        && reply.Returned? && reply.text.Some?
        && r.content == Trim(Truncate(reply.text.value))
        && r.contentLength == |Truncate(reply.text.value)|
  {
  }

  /** A file that only claims to be a PDF still gets through: the check is on the declared type, not the bytes. */
  lemma ShortTextPassesUnchanged(userId: Option<string>, text: Text, docxReply: LibraryReply)
    requires SignedIn(userId)
    requires |text| == 50 && forall i :: 0 <= i < |text| ==> text[i] == 0x61
    ensures Analyze(userId, Blob("application/pdf", 20), Returned(Some(text)), docxReply) == Analysis(text, "application/pdf", 50)
  {
    var p := "application/pdf";
    var lowered := ToLowerAscii(p);
    assert forall i | 0 <= i < |p| :: lowered[i] == p[i];
    assert lowered == p;
    assert IsTrimSlice(text, 0, 50) by {
      assert text[..0] == [] && text[50..] == [];
    }
    TrimIsTheTrimSlice(text, 0, 50);
  }

  /**
   * For a signed-in upload of an accepted type within the size bound: a
   * throwing library is a 500 carrying its message (or `"Unknown error"`),
   * and text with a visible code unit always succeeds.
   */
  lemma ExtractionOutcomes(userId: Option<string>, mimeType: string, size: nat, pdfReply: LibraryReply, docxReply: LibraryReply)
    requires SignedIn(userId) && size <= MaxFileSize
    requires ToLowerAscii(mimeType) in AcceptedTypes
    ensures var fileType := ToLowerAscii(mimeType);
      var reply := ChosenReply(fileType, pdfReply, docxReply);
      reply.Threw? ==>
        Analyze(userId, Blob(mimeType, size), pdfReply, docxReply) == ProcessingError(reply.message.GetOr("Unknown error"))
    ensures var fileType := ToLowerAscii(mimeType);
      var reply := ChosenReply(fileType, pdfReply, docxReply);
      reply.Returned? && reply.text.Some? && !AllTrimmable(reply.text.value) ==>
        Analyze(userId, Blob(mimeType, size), pdfReply, docxReply)
          == Analysis(Trim(Truncate(reply.text.value)), fileType, |Truncate(reply.text.value)|)
  {
  }
}
