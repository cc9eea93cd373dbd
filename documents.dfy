/**
 * The document endpoints (backend/app/api/v1/documents.py): the upload checks
 * and the safe stored file name, the creation of a beautify job, the processing
 * endpoint's page upsert and truncated OCR echo, the page-edit whitelist and
 * the selection of pages for the PDF download. Lookups, the clock, the file
 * system, the OCR engine and the PDF renderer are inputs.
 */
module Documents {
  import opened Wrappers
  import opened Text
  import opened Records
  import EquationExtractor

  // ---------------------------------------------------------------------------
  // upload_document

  /** The accepted upload suffixes, lowercased. */
  const AllowedUploadTypes: set<string> := {".pdf", ".png", ".jpg", ".jpeg", ".tiff", ".bmp", ".gif"}

  /**
   * The same suffixes, in one fixed order for the rejection message. The source joins the set itself,
   * whose iteration order Python leaves unspecified; the model fixes this one.
   */
  const AllowedUploadList: seq<string> := [".pdf", ".png", ".jpg", ".jpeg", ".tiff", ".bmp", ".gif"]

  /** `file.filename or "file"` */
  function UploadName(filename: Option<string>): (r: string)
    ensures r != []
    ensures filename.Some? && filename.value != "" ==> r == filename.value
    ensures !(filename.Some? && filename.value != "") ==> r == "file"
  {
    if filename.Some? && filename.value != "" then filename.value else "file"
  }

  /** `Path(file.filename or "file").suffix.lower()` */
  function UploadExt(filename: Option<string>): string {
    Lower(Suffix(UploadName(filename)))
  }

  /** The characters a stored file name keeps. */
  predicate KeptInName(c: char) {
    IsAlnum(c) || c in "._-"
  }

  /** The safe file name: every character kept or replaced by `_`. */
  function SafeName(name: string): (r: string)
    ensures |r| == |name|
    ensures forall i :: 0 <= i < |name| ==> r[i] == (if KeptInName(name[i]) then name[i] else '_')
  {
    if name == [] then []
    else [if KeptInName(name[0]) then name[0] else '_'] + SafeName(name[1..])
  }

  /** A safe name holds only kept characters, so no path separator, and making it safe again changes nothing. */
  lemma SafeNameIsSafe(name: string)
    ensures forall c :: c in SafeName(name) ==> KeptInName(c)
    ensures '/' !in SafeName(name)
    ensures SafeName(SafeName(name)) == SafeName(name)
  {
    var r := SafeName(name);
    assert forall i :: 0 <= i < |r| ==> KeptInName(r[i]);
    assert !KeptInName('/');
  }

  /** A name made only of kept characters is already safe. */
  lemma SafeNameKeepsSafeNames(name: string)
    requires forall i :: 0 <= i < |name| ==> KeptInName(name[i])
    ensures SafeName(name) == name
  {
  }

  /** Where the upload is stored: the millisecond timestamp, `_` and the safe name, under `uploads`. */
  function UploadPath(timestamp: int, filename: Option<string>): string {
    "uploads/" + IntToString(timestamp) + "_" + SafeName(UploadName(filename))
  }

  /** The rejection of an unsupported suffix: it names the suffix, then lists the allowed ones. */
  function UnsupportedDetail(ext: string): (d: string)
    ensures StartsWith(d, "Unsupported file type: " + ext)
  {
    var head := "Unsupported file type: " + ext;
    StartsWithConcat(head, ". Allowed: " + Join(", ", AllowedUploadList));
    head + (". Allowed: " + Join(", ", AllowedUploadList))
  }

  /**
   * `upload_document` for an upload of `size` bytes at clock reading
   * `timestamp`; `saveError` is the message of an exception while writing the
   * file or the record, and `newId` the id the database assigns.
   */
  method UploadDocument(filename: Option<string>, size: nat, timestamp: int, saveError: Option<string>, newId: int)
    returns (r: Result<Document, HttpError>)
    ensures UploadExt(filename) !in AllowedUploadTypes ==>
      (r.Err? && r.error.status == 400 && StartsWith(r.error.detail, "Unsupported file type: " + UploadExt(filename)))
    ensures UploadExt(filename) in AllowedUploadTypes && size == 0 ==> r == Err(HttpError(400, "Empty file uploaded"))
    ensures UploadExt(filename) in AllowedUploadTypes && size > 0 && saveError.Some? ==>
      r == Err(HttpError(500, "Upload failed: " + saveError.value))
    ensures r.Ok? <==> UploadExt(filename) in AllowedUploadTypes && size > 0 && saveError.None?
    ensures r.Ok? ==> (fresh(r.value) && r.value.id == newId && r.value.filename == filename
      && r.value.filePath == UploadPath(timestamp, filename) && r.value.status == "uploaded" && r.value.pages == [])
  {
    var ext := UploadExt(filename);
    if ext !in AllowedUploadTypes {
      return Err(HttpError(400, UnsupportedDetail(ext)));
    }
    var location := UploadPath(timestamp, filename);
    if size == 0 {
      return Err(HttpError(400, "Empty file uploaded"));
    }
    if saveError.Some? {
      return Err(HttpError(500, "Upload failed: " + saveError.value));
    }
    var doc := new Document(newId, filename, location);
    r := Ok(doc);
  }

  // ---------------------------------------------------------------------------
  // beautify_document

  /**
   * `beautify_document` up to the scheduling of the job: the document is marked
   * processing and a queued job is created for it. `fileExists` is the file
   * system's answer for its path, `commitError` an exception while committing.
   */
  method BeautifyDocument(doc: Document?, fileExists: bool, commitError: Option<string>)
    returns (r: Result<Job, HttpError>)
    modifies if doc != null then {doc} else {}
    ensures doc == null ==> r == Err(HttpError(404, "Document not found"))
    ensures doc != null && !fileExists ==>
      r == Err(HttpError(404, "Document file not found: " + doc.filePath)) && doc.status == old(doc.status)
    ensures doc != null && fileExists && commitError.Some? ==>
      r == Err(HttpError(500, "Beautification scheduling failed: " + commitError.value))
    ensures r.Ok? <==> doc != null && fileExists && commitError.None?
    ensures doc != null && fileExists ==> doc.status == "processing"
    ensures r.Ok? ==> (fresh(r.value) && r.value.documentId == doc.id
      && r.value.status == Queued && r.value.progress == 0 && r.value.message == "Queued")
    ensures doc != null ==>
      doc.pages == old(doc.pages) && doc.filePath == old(doc.filePath) && doc.id == old(doc.id)
      && doc.filename == old(doc.filename)
  {
    if doc == null {
      return Err(HttpError(404, "Document not found"));
    }
    if !fileExists {
      return Err(HttpError(404, "Document file not found: " + doc.filePath));
    }
    doc.status := "processing";
    if commitError.Some? {
      return Err(HttpError(500, "Beautification scheduling failed: " + commitError.value));
    }
    var job := new Job(doc.id);
    r := Ok(job);
  }

  // ---------------------------------------------------------------------------
  // process_document (the endpoint)

  /** The OCR text the endpoint echoes: cut to 500 characters plus "..." only when longer. */
  function Truncated(text: string): (r: string)
    ensures |text| <= 500 ==> r == text
    ensures |text| > 500 ==> r == text[..500] + "..." && |r| == 503
    ensures StartsWith(r, Take(text, 500))
  {
    if |text| > 500 then text[..500] + "..." else text
  }

  /** What the OCR engine's result gives as text: nothing for a missing (falsy) result. */
  function OcrText(ocr: Option<string>): string {
    ocr.GetOr("")
  }

  /**
   * `"\n".join(equations)` as written: the extractor returns equation records,
   * not strings, so the join raises a TypeError as soon as there is one.
   */
  function LatexContentAsWritten(equations: seq<EquationExtractor.Equation>): (r: Result<Option<string>, string>)
    ensures equations == [] ==> r == Ok(None)
  {
    if equations == [] then Ok(None)
    else Err("sequence item 0: expected str instance, ExtractedEquation found")
  }

  /** Any extracted equation at all makes the join raise, so the processing endpoint fails with 500. */
  lemma LatexJoinRejectsEquations(equations: seq<EquationExtractor.Equation>)
    ensures LatexContentAsWritten(equations).Err? <==> equations != []
  {
  }

  function Latexes(equations: seq<EquationExtractor.Equation>): (r: seq<string>)
    ensures |r| == |equations| && forall i :: 0 <= i < |r| ==> r[i] == equations[i].latex
  {
    if equations == [] then [] else Latexes(equations[..|equations| - 1]) + [equations[|equations| - 1].latex]
  }

  /** The evidently intended joined LaTeX: each equation's `latex`, one per line, or nothing for no equation. */
  function LatexContent(equations: seq<EquationExtractor.Equation>): (r: Option<string>)
    ensures r.None? <==> equations == []
  {
    if equations == [] then None else Some(Join("\n", Latexes(equations)))
  }

  /** The joined LaTeX splits back into the equations' `latex` fields when none holds a newline. */
  lemma LatexContentSplits(equations: seq<EquationExtractor.Equation>)
    requires equations != []
    requires forall i :: 0 <= i < |equations| ==> '\n' !in equations[i].latex
    ensures Split(LatexContent(equations).value, '\n') == Latexes(equations)
  {
    JoinSplitsBack(Latexes(equations), '\n');
  }

  /** Joining non-empty many pieces free of `c` with `c`, then splitting at `c`, gives the pieces back. */
  lemma {:induction false} JoinSplitsBack(parts: seq<string>, c: char)
    requires parts != []
    requires forall i :: 0 <= i < |parts| ==> c !in parts[i]
    ensures Split(Join([c], parts), c) == parts
  {
    if |parts| == 1 {
      assert IndexOfChar(parts[0], c) == |parts[0]|;
    } else {
      var head := parts[0];
      var rest := Join([c], parts[1..]);
      var s := head + [c] + rest;
      assert Join([c], parts) == s;
      assert IndexOfChar(s, c) == |head| by {
        assert forall i :: 0 <= i < |head| ==> s[i] == head[i];
        assert s[|head|] == c;
        IndexOfFirst(s, c, |head|);
      }
      assert s[..|head|] == head && s[|head| + 1..] == rest;
      JoinSplitsBack(parts[1..], c);
    }
  }

  /** The first occurrence of `c` is at `k` when `s[k]` is `c` and no earlier character is. */
  lemma {:induction false} IndexOfFirst(s: string, c: char, k: nat)
    requires k < |s| && s[k] == c && forall i :: 0 <= i < k ==> s[i] != c
    ensures IndexOfChar(s, c) == k
  {
    if k > 0 {
      IndexOfFirst(s[1..], c, k - 1);
    }
  }

  /** The endpoint's reply. */
  datatype ProcessReply = ProcessReply(ocrText: string, equationsFound: nat, latexContent: Option<string>)

  /** The equations the extractor finds in the OCR text, given the patterns' matches in it. */
  function Found(ocr: Option<string>, found: seq<seq<EquationExtractor.RegexMatch>>): seq<EquationExtractor.Equation> {
    EquationExtractor.Extracted(OcrText(ocr), found)
  }

  /**
   * The processing endpoint with the evidently intended join: the OCR text and
   * the joined LaTeX go into the first page, which is created as page 1 when
   * the document has none, and the document is marked processed.
   */
  method ProcessUpload(doc: Document?, fileExists: bool, ocr: Option<string>,
                       found: seq<seq<EquationExtractor.RegexMatch>>, commitError: Option<string>)
    returns (r: Result<ProcessReply, HttpError>)
    modifies if doc != null then {doc} else {}
    ensures doc == null ==> r == Err(HttpError(404, "Document not found"))
    ensures doc != null && !fileExists ==> r == Err(HttpError(404, "Document file not found: " + doc.filePath))
    ensures doc != null && fileExists && commitError.Some? ==>
      r == Err(HttpError(500, "Processing failed: " + commitError.value))
    ensures r.Ok? <==> doc != null && fileExists && commitError.None?
    ensures r.Ok? ==>
      r.value == ProcessReply(Truncated(OcrText(ocr)), |Found(ocr, found)|, LatexContent(Found(ocr, found)))
    ensures r.Ok? ==> (doc.status == "processed" && |doc.pages| == Max(1, |old(doc.pages)|)
      && doc.pages[0].ocrText == Some(OcrText(ocr)) && doc.pages[0].latexContent == LatexContent(Found(ocr, found))
      && doc.pages[1..] == old(doc.pages)[Min(1, |old(doc.pages)|)..])
    ensures r.Ok? && old(doc.pages) == [] ==>
      doc.pages[0] == PageRow(1, doc.filePath, Some(OcrText(ocr)), LatexContent(Found(ocr, found)), None)
    ensures r.Ok? && old(doc.pages) != [] ==> (doc.pages[0].number == old(doc.pages)[0].number
      && doc.pages[0].beautifiedText == old(doc.pages)[0].beautifiedText)
    ensures r.Err? && doc != null ==> doc.pages == old(doc.pages) && doc.status == old(doc.status)
  {
    if doc == null {
      return Err(HttpError(404, "Document not found"));
    }
    if !fileExists {
      return Err(HttpError(404, "Document file not found: " + doc.filePath));
    }
    var rawText := OcrText(ocr);
    var equations := EquationExtractor.ExtractEquations(rawText, found);
    var latex := LatexContent(equations);
    if commitError.Some? {
      return Err(HttpError(500, "Processing failed: " + commitError.value));
    }
    if doc.pages == [] {
      doc.pages := [PageRow(1, doc.filePath, Some(rawText), latex, None)];
    } else {
      doc.pages := [doc.pages[0].(ocrText := Some(rawText), latexContent := latex)] + doc.pages[1..];
    }
    doc.status := "processed";
    r := Ok(ProcessReply(Truncated(rawText), |equations|, latex));
  }

  // ---------------------------------------------------------------------------
  // update_page

  /** The page columns a payload may change. */
  const EditableFields: seq<string> := ["ocr_text", "latex_content", "beautified_text"]

  /** `setattr(page, field, value)` for an editable field. */
  function SetField(page: PageRow, field: string, value: Option<string>): PageRow {
    if field == "ocr_text" then page.(ocrText := value)
    else if field == "latex_content" then page.(latexContent := value)
    else if field == "beautified_text" then page.(beautifiedText := value)
    else page
  }

  /** The payload's value for a column, or the column's current value when the payload lacks the key. */
  function Field(payload: map<string, Option<string>>, key: string, current: Option<string>): Option<string> {
    if key in payload then payload[key] else current
  }

  /** The page after the edit: the three editable columns from the payload where it has them. */
  function Edited(page: PageRow, payload: map<string, Option<string>>): PageRow {
    page.(ocrText := Field(payload, "ocr_text", page.ocrText),
          latexContent := Field(payload, "latex_content", page.latexContent),
          beautifiedText := Field(payload, "beautified_text", page.beautifiedText))
  }

  /** The page after the first `n` editable fields have been applied. */
  function EditedUpTo(page: PageRow, payload: map<string, Option<string>>, n: nat): PageRow
    requires n <= |EditableFields|
  {
    if n == 0 then page
    else
      var field := EditableFields[n - 1];
      var p := EditedUpTo(page, payload, n - 1);
      if field in payload then SetField(p, field, payload[field]) else p
  }

  /** Applying the three fields in turn gives the edited page. */
  lemma EditedUpToAll(page: PageRow, payload: map<string, Option<string>>)
    ensures EditedUpTo(page, payload, |EditableFields|) == Edited(page, payload)
  {
    assert EditableFields[0] == "ocr_text" && EditableFields[1] == "latex_content" && EditableFields[2] == "beautified_text";
    var p0 := EditedUpTo(page, payload, 0);
    var p1 := EditedUpTo(page, payload, 1);
    var p2 := EditedUpTo(page, payload, 2);
    assert p0 == page;
    assert p1 == (if "ocr_text" in payload then SetField(p0, "ocr_text", payload["ocr_text"]) else p0);
    assert p1 == page.(ocrText := Field(payload, "ocr_text", page.ocrText));
    assert p2 == (if "latex_content" in payload then SetField(p1, "latex_content", payload["latex_content"]) else p1);
  }

  /** `update_page`: the payload's editable keys are copied onto the page found, 404 when there is none. */
  method UpdatePage(page: Option<PageRow>, payload: map<string, Option<string>>) returns (r: Result<PageRow, HttpError>)
    ensures page.None? ==> r == Err(HttpError(404, "Page not found"))
    ensures page.Some? ==> r == Ok(Edited(page.value, payload))
  {
    if page.None? {
      return Err(HttpError(404, "Page not found"));
    }
    var p := page.value;
    for i := 0 to |EditableFields|
      invariant p == EditedUpTo(page.value, payload, i)
    {
      var field := EditableFields[i];
      if field in payload {
        p := SetField(p, field, payload[field]);
      }
    }
    EditedUpToAll(page.value, payload);
    r := Ok(p);
  }

  /** An edit keeps the page number and image, and a payload key outside the whitelist changes nothing. */
  lemma EditIgnoresOtherKeys(page: PageRow, payload: map<string, Option<string>>, key: string, value: Option<string>)
    requires key !in EditableFields
    ensures Edited(page, payload[key := value]) == Edited(page, payload)
    ensures Edited(page, payload).number == page.number && Edited(page, payload).imagePath == page.imagePath
  {
    assert key != "ocr_text" && key != "latex_content" && key != "beautified_text" by {
      assert EditableFields[0] == "ocr_text" && EditableFields[1] == "latex_content" && EditableFields[2] == "beautified_text";
    }
  }

  // ---------------------------------------------------------------------------
  // download_beautified_pdf

  predicate HasBeautifiedText(p: PageRow) {
    p.beautifiedText.Some? && Strip(p.beautifiedText.value) != ""
  }

  /** The beautified texts of the pages that have non-blank ones, in page-list order. */
  function BeautifiedTexts(pages: seq<PageRow>): seq<string> {
    if pages == [] then []
    else
      var last := pages[|pages| - 1];
      BeautifiedTexts(pages[..|pages| - 1]) + (if HasBeautifiedText(last) then [last.beautifiedText.value] else [])
  }

  /** The texts sent to the renderer are exactly the non-blank beautified texts; none only when no page has one. */
  lemma {:induction false} BeautifiedTextsMeaning(pages: seq<PageRow>)
    ensures |BeautifiedTexts(pages)| <= |pages|
    ensures forall t :: t in BeautifiedTexts(pages) <==>
      exists i :: 0 <= i < |pages| && HasBeautifiedText(pages[i]) && pages[i].beautifiedText.value == t
    ensures BeautifiedTexts(pages) == [] <==> forall i :: 0 <= i < |pages| ==> !HasBeautifiedText(pages[i])
  {
    if pages != [] {
      var init, last := pages[..|pages| - 1], pages[|pages| - 1];
      BeautifiedTextsMeaning(init);
      assert forall i :: 0 <= i < |init| ==> init[i] == pages[i];
      forall t
        ensures t in BeautifiedTexts(pages) <==>
          exists i :: 0 <= i < |pages| && HasBeautifiedText(pages[i]) && pages[i].beautifiedText.value == t
      {
        if exists i :: 0 <= i < |pages| && HasBeautifiedText(pages[i]) && pages[i].beautifiedText.value == t {
          var i :| 0 <= i < |pages| && HasBeautifiedText(pages[i]) && pages[i].beautifiedText.value == t;
          if i < |init| {
            assert init[i] == pages[i];
          }
        }
      }
    }
  }

  /** The download's error details. */
  const NoPagesDetail := "Document has no pages with beautified content"
  const NotBeautifiedDetail := "No beautified content available. Please run beautification first."
  const RenderFailedDetail := "PDF generation failed: PDF generation failed"
  const NoFileNameDetail := "PDF generation failed: expected str, bytes or os.PathLike object, not NoneType"

  /** What the download hands to the renderer and to the client. */
  datatype PdfDownload = PdfDownload(pagesText: seq<string>, title: string, downloadName: string)

  /**
   * `download_beautified_pdf`, with `rendered` the renderer's success flag:
   * 404 without a document, 400 without pages or without beautified text, 500
   * when rendering fails or the document has no file name.
   */
  function DownloadPdf(found: bool, filename: Option<string>, pages: seq<PageRow>, rendered: bool)
    : (r: Result<PdfDownload, HttpError>)
    ensures !found ==> r == Err(HttpError(404, "Document not found"))
    ensures found && pages == [] ==> r == Err(HttpError(400, NoPagesDetail))
    ensures found && pages != [] && BeautifiedTexts(pages) == [] ==>
      r == Err(HttpError(400, NotBeautifiedDetail))
    ensures r.Ok? <==> found && BeautifiedTexts(pages) != [] && rendered && filename.Some?
    ensures r.Ok? ==> (r.value.pagesText == BeautifiedTexts(pages)
      && r.value.title == "Beautified Notes - " + filename.value
      && r.value.downloadName == "beautified_" + Stem(filename.value) + ".pdf")
  {
    if !found then Err(HttpError(404, "Document not found"))
    else if pages == [] then Err(HttpError(400, NoPagesDetail))
    else if BeautifiedTexts(pages) == [] then Err(HttpError(400, NotBeautifiedDetail))
    else if !rendered then Err(HttpError(500, RenderFailedDetail))
    else if filename.None? then Err(HttpError(500, NoFileNameDetail))
    else
      Ok(PdfDownload(BeautifiedTexts(pages), "Beautified Notes - " + filename.value,
                     "beautified_" + Stem(filename.value) + ".pdf"))
  }
}
