/**
 * The page transcriber (backend/app/services/visual_beautifier.py): get an image of
 * the page (rendering a PDF page to a temporary PNG), ask a vision model for a raw
 * transcription, ask a text model to clean it up, and turn every failure into a
 * returned `[Error…]` string. The two model calls are the replies `stage1` and `stage2`;
 * the file system is the set of paths that exist.
 */
module VisualBeautifier {
  import opened Wrappers
  import opened Text

  /** What a model call gives back: a text, nothing (None), or an exception. */
  datatype Reply = Answer(text: string) | NoAnswer | Raised(msg: string)

  /** The image types the transcriber reads directly. */
  const ImageExtensions: seq<string> := [".png", ".jpg", ".jpeg", ".tiff", ".bmp", ".gif"]

  /** `not r or not r.strip()` is false: a non-blank text came back. */
  predicate Usable(r: Reply) {
    r.Answer? && !IsBlank(r.text)
  }

  /** Where the renderer writes page `pageNum` of `pdfPath` (the absolute prefix is not modelled). */
  function RenderedPath(pdfPath: string, pageNum: int, pid: int): (p: string)
    ensures EndsWith(p, ".png")
  {
    var p := "extracted_images/page_" + IntToString(pageNum) + "_" + IntToString(pid) + "_" + BaseName(pdfPath) + ".png";
    assert p[|p| - 4..] == ".png";
    p
  }

  /**
   * Where PyMuPDF raises while rendering an existing PDF: when opening it, or when drawing or
   * saving the page (after the page number has been checked); the message is `str(e)`.
   */
  datatype RenderFault = Clean | AtOpen(msg: string) | AtDraw(msg: string)

  /**
   * `_render_pdf_page`: the error of the FileNotFoundError when the PDF is missing, the error
   * PyMuPDF raises, None for a page number outside 1..pageCount (the PDF's page count),
   * otherwise the path of the rendered image.
   */
  function RenderSpec(files: set<string>, pdfPath: string, pageNum: int, pageCount: nat, pid: int, fault: RenderFault)
    : (r: Result<Option<string>, string>)
    ensures pdfPath !in files ==> r == Err(pdfPath + " not found")
    ensures pdfPath in files && fault.AtOpen? ==> r == Err(fault.msg)
    ensures r.Ok? && r.value.None? <==> pdfPath in files && !fault.AtOpen? && (pageNum < 1 || pageNum > pageCount)
    ensures r.Ok? && r.value.Some? <==> pdfPath in files && fault.Clean? && 1 <= pageNum <= pageCount
    ensures r.Ok? && r.value.Some? ==> r.value.value == RenderedPath(pdfPath, pageNum, pid)
  {
    if pdfPath !in files then Err(pdfPath + " not found")
    else if fault.AtOpen? then Err(fault.msg)
    else if pageNum < 1 || pageNum > pageCount then Ok(None)
    else if fault.AtDraw? then Err(fault.msg)
    else Ok(Some(RenderedPath(pdfPath, pageNum, pid)))
  }

  /** The marker for an exception raised inside the `try` block. */
  function ErrorDuring(msg: string): (r: string)
    ensures StartsWith(r, "[Error")
  {
    var r := "[Error during beautification: " + msg + "]";
    assert r[..6] == "[Error";
    r
  }

  /** The marker for a first stage that answered with an "Error:" text. */
  function StageOneError(raw: string): (r: string)
    ensures StartsWith(r, "[Stage 1 Error: ")
  {
    var r := "[Stage 1 Error: " + raw + "]";
    assert r[..16] == "[Stage 1 Error: ";
    r
  }

  const EmptyVisionReply := "[Error: Vision LLM returned empty response]"

  /** The two model stages, once an image exists. */
  function FromStages(stage1: Reply, stage2: Reply): (r: string)
    ensures r != ""
    ensures stage1.Raised? ==> r == ErrorDuring(stage1.msg)
    ensures !stage1.Raised? && !Usable(stage1) ==> r == EmptyVisionReply
    ensures Usable(stage1) && StartsWith(stage1.text, "Error:") ==> r == StageOneError(stage1.text)
    ensures Usable(stage1) && !StartsWith(stage1.text, "Error:") ==>
      (stage2.Raised? ==> r == ErrorDuring(stage2.msg)) &&
      (!stage2.Raised? && (!Usable(stage2) || StartsWith(stage2.text, "Error:")) ==> r == Strip(stage1.text)) &&
      (Usable(stage2) && !StartsWith(stage2.text, "Error:") ==> r == Strip(stage2.text))
  {
    if stage1.Raised? then ErrorDuring(stage1.msg)
    else if !Usable(stage1) then EmptyVisionReply
    else if StartsWith(stage1.text, "Error:") then StageOneError(stage1.text)
    else if stage2.Raised? then ErrorDuring(stage2.msg)
    else if !Usable(stage2) || StartsWith(stage2.text, "Error:") then
      StripEmptyIffBlank(stage1.text);
      Strip(stage1.text)
    else
      StripEmptyIffBlank(stage2.text);
      Strip(stage2.text)
  }

  /** The outcome of step 1: an early error string, or the image to transcribe and whether it is temporary. */
  datatype ImageOutcome = Early(msg: string) | Image(path: string, temporary: bool)

  /** Step 1 of `beautify_page`: only a rendered PDF page is temporary; a user's image never is. */
  function ImageStep(files: set<string>, filePath: string, pageNumber: int, pageCount: nat, pid: int, fault: RenderFault): (o: ImageOutcome)
    ensures o.Image? && o.temporary ==> Lower(Suffix(filePath)) == ".pdf" && o.path != filePath
    ensures o.Image? && !o.temporary ==> o.path == filePath && Lower(Suffix(filePath)) in ImageExtensions
    ensures o.Early? ==> o.msg != "" && o.msg[0] == '['
    ensures Lower(Suffix(filePath)) == ".pdf" ==>
      (o.Image? <==> filePath in files && fault.Clean? && 1 <= pageNumber <= pageCount)
    ensures Lower(Suffix(filePath)) == ".pdf" && filePath in files && fault.AtOpen? ==>
      o == Early("[Error: Render Exception for page " + IntToString(pageNumber) + ": " + fault.msg + "]")
    ensures Lower(Suffix(filePath)) == ".pdf" && filePath in files && fault.AtDraw? && 1 <= pageNumber <= pageCount ==>
      o == Early("[Error: Render Exception for page " + IntToString(pageNumber) + ": " + fault.msg + "]")
    ensures Lower(Suffix(filePath)) != ".pdf" ==> (o.Image? <==> Lower(Suffix(filePath)) in ImageExtensions)
  {
    var ext := Lower(Suffix(filePath));
    if ext == ".pdf" then
      match RenderSpec(files, filePath, pageNumber, pageCount, pid, fault)
      case Err(e) => Early("[Error: Render Exception for page " + IntToString(pageNumber) + ": " + e + "]")
      case Ok(None) => Early("[Error: Could not render PDF page " + IntToString(pageNumber) + "]")
      case Ok(Some(p)) =>
        RenderedPathIsNotPdf(filePath, pageNumber, pid);
        Image(p, true)
    else if ext in ImageExtensions then Image(filePath, false)
    else Early("[Error: Unsupported file type: " + ext + "]")
  }

  /** A rendered page image ends in ".png", so it is never the PDF it was rendered from. */
  lemma RenderedPathIsNotPdf(pdfPath: string, pageNum: int, pid: int)
    requires Lower(Suffix(pdfPath)) == ".pdf"
    ensures RenderedPath(pdfPath, pageNum, pid) != pdfPath
  {
    var p := RenderedPath(pdfPath, pageNum, pid);
    var sfx := Suffix(pdfPath);
    assert |sfx| == 4 && LowerChar(sfx[3]) == Lower(sfx)[3] == 'f';
    assert EndsWith(pdfPath, sfx);
    assert pdfPath[|pdfPath| - 4..][3] == sfx[3];
    assert EndsWith(p, ".png") && p[|p| - 4..][3] == 'g';
  }

  /** The marker for an image path that does not exist. */
  const ImageMissing := "[Error: Image file not found for processing]"

  /** What `beautify_page` returns for this file, page, file system and pair of model replies. */
  function Transcribe(files: set<string>, filePath: string, pageNumber: int, pageCount: nat, pid: int, fault: RenderFault,
                      stage1: Reply, stage2: Reply): (r: string)
    ensures r != ""
  {
    match ImageStep(files, filePath, pageNumber, pageCount, pid, fault)
    case Early(msg) => msg
    case Image(path, temporary) =>
      if !temporary && path !in files then ImageMissing
      else FromStages(stage1, stage2)
  }

  /** The temporary image the call creates (and its clean-up removes): the rendered page, if any. */
  function TempImage(files: set<string>, filePath: string, pageNumber: int, pageCount: nat, pid: int, fault: RenderFault): (t: set<string>)
    ensures Lower(Suffix(filePath)) != ".pdf" ==> t == {}
    ensures filePath !in t
  {
    match ImageStep(files, filePath, pageNumber, pageCount, pid, fault)
    case Image(p, true) => {p}
    case _ => {}
  }

  /**
   * A usable first stage whose clean-up fails (nothing, a blank text or an "Error:" text) gives the
   * stripped raw transcription, which is non-empty and has no surrounding whitespace.
   */
  lemma {:induction false} CleanupFailureKeepsRaw(stage1: Reply, stage2: Reply)
    requires Usable(stage1) && !StartsWith(stage1.text, "Error:")
    requires stage2.NoAnswer? || (stage2.Answer? && (IsBlank(stage2.text) || StartsWith(stage2.text, "Error:")))
    ensures FromStages(stage1, stage2) == Strip(stage1.text)
    ensures Strip(stage1.text) != "" && !IsSpace(Strip(stage1.text)[0])
  {
    StripEmptyIffBlank(stage1.text);
  }

  /** The strings that start with one of the transcriber's error markers. */
  predicate IsMarker(r: string) {
    StartsWith(r, "[Error") || StartsWith(r, "[Stage 1 Error: ")
  }

  /**
   * `beautify_page` never raises: a failed or exceptional stage gives an error marker, and
   * otherwise the result is one of the two model texts, stripped and non-empty.
   */
  lemma {:induction false} OutcomeIsMarkerOrText(stage1: Reply, stage2: Reply)
    ensures var r := FromStages(stage1, stage2);
      !(Usable(stage1) && !StartsWith(stage1.text, "Error:") && !stage2.Raised?) ==> IsMarker(r)
    ensures var r := FromStages(stage1, stage2);
      Usable(stage1) && !StartsWith(stage1.text, "Error:") && !stage2.Raised? ==>
        r != "" && !IsSpace(r[0]) && !IsSpace(r[|r| - 1]) &&
        r == Strip(if Usable(stage2) && !StartsWith(stage2.text, "Error:") then stage2.text else stage1.text)
  {
    if Usable(stage1) && !StartsWith(stage1.text, "Error:") && !stage2.Raised? {
      var chosen := if Usable(stage2) && !StartsWith(stage2.text, "Error:") then stage2.text else stage1.text;
      StripEmptyIffBlank(chosen);
    }
    if !stage1.Raised? && !Usable(stage1) {
      var m := EmptyVisionReply;
      assert m[0] == '[' && m[1] == 'E' && m[2] == 'r' && m[3] == 'r' && m[4] == 'o' && m[5] == 'r';
      assert m[..6] == "[Error";
    }
  }

  lemma AddThenRemove(files: set<string>, p: string)
    ensures (files + {p}) - {p} == files - {p}
  {
  }

  /** The paths that exist. */
  class FileStore {
    var files: set<string>

    constructor (files: set<string>)
      ensures this.files == files
    {
      this.files := files;
    }
  }

  /**
   * `_render_pdf_page`: raises when the PDF is missing, refuses a page outside 1..pageCount,
   * and otherwise writes the page image and returns its path.
   */
  method RenderPdfPage(store: FileStore, pdfPath: string, pageNum: int, pageCount: nat, pid: int, fault: RenderFault)
    returns (r: Result<Option<string>, string>)
    modifies store
    ensures r == RenderSpec(old(store.files), pdfPath, pageNum, pageCount, pid, fault)
    ensures store.files == old(store.files) + (if r.Ok? && r.value.Some? then {r.value.value} else {})
  {
    if pdfPath !in store.files {
      return Err(pdfPath + " not found");
    }
    if fault.AtOpen? {
      return Err(fault.msg);
    }
    if pageNum < 1 || pageNum > pageCount {
      return Ok(None);
    }
    if fault.AtDraw? {
      return Err(fault.msg);
    }
    var path := RenderedPath(pdfPath, pageNum, pid);
    store.files := store.files + {path};
    r := Ok(Some(path));
  }

  /**
   * Step 1 of `beautify_page`: the image to transcribe and whether it is a temporary rendering,
   * or the error string that ends the call early.
   */
  method AcquireImage(store: FileStore, filePath: string, pageNumber: int, pageCount: nat, pid: int, fault: RenderFault)
    returns (target: Option<string>, tempImageCreated: bool, early: Option<string>)
    modifies store
    ensures var o := ImageStep(old(store.files), filePath, pageNumber, pageCount, pid, fault);
      if o.Early? then early == Some(o.msg) && !tempImageCreated
      else early.None? && target == Some(o.path) && tempImageCreated == o.temporary
    ensures store.files == old(store.files) + TempImage(old(store.files), filePath, pageNumber, pageCount, pid, fault)
  {
    target, tempImageCreated, early := None, false, None;
    var ext := Lower(Suffix(filePath));
    if ext == ".pdf" {
      var rendered := RenderPdfPage(store, filePath, pageNumber, pageCount, pid, fault);
      match rendered {
        case Err(e) =>
          early := Some("[Error: Render Exception for page " + IntToString(pageNumber) + ": " + e + "]");
        case Ok(None) =>
          early := Some("[Error: Could not render PDF page " + IntToString(pageNumber) + "]");
        case Ok(Some(p)) =>
          target := Some(p);
          tempImageCreated := true;
      }
    } else if ext in ImageExtensions {
      target := Some(filePath);
    } else {
      early := Some("[Error: Unsupported file type: " + ext + "]");
    }
  }

  /** Stages 1 and 2 of `beautify_page`, once the image exists. */
  method RunStages(stage1: Reply, stage2: Reply) returns (text: string)
    ensures text == FromStages(stage1, stage2)
  {
    if stage1.Raised? {
      text := ErrorDuring(stage1.msg);
    } else if !Usable(stage1) {
      text := EmptyVisionReply;
    } else if StartsWith(stage1.text, "Error:") {
      text := StageOneError(stage1.text);
    } else if stage2.Raised? {
      text := ErrorDuring(stage2.msg);
    } else if !Usable(stage2) {
      text := Strip(stage1.text);
    } else if StartsWith(stage2.text, "Error:") {
      text := Strip(stage1.text);
    } else {
      text := Strip(stage2.text);
    }
  }

  /**
   * `beautify_page`: returns what `Transcribe` says and, through its clean-up, removes only the
   * image it rendered itself; a user's image file is never deleted.
   */
  method BeautifyPage(store: FileStore, filePath: string, pageNumber: int, pageCount: nat, pid: int, fault: RenderFault,
                      stage1: Reply, stage2: Reply)
    returns (text: string)
    modifies store
    ensures text == Transcribe(old(store.files), filePath, pageNumber, pageCount, pid, fault, stage1, stage2)
    ensures store.files == old(store.files) - TempImage(old(store.files), filePath, pageNumber, pageCount, pid, fault)
  {
    ghost var files0 := store.files;
    ghost var temp := TempImage(files0, filePath, pageNumber, pageCount, pid, fault);
    ghost var o := ImageStep(files0, filePath, pageNumber, pageCount, pid, fault);
    ghost var expected := Transcribe(files0, filePath, pageNumber, pageCount, pid, fault, stage1, stage2);
    assert temp == if o.Image? && o.temporary then {o.path} else {};
    var target, tempImageCreated, early := AcquireImage(store, filePath, pageNumber, pageCount, pid, fault);
    if early.Some? {
      text := early.value;
      assert o.Early? && expected == o.msg;
    } else if target.None? || target.value !in store.files {
      text := ImageMissing;
      assert o.Image? && !o.temporary && o.path !in files0;
    } else {
      text := RunStages(stage1, stage2);
      assert o.Image? && (o.temporary || o.path in files0);
    }

    // the clean-up of the `finally` block
    if tempImageCreated && target.Some? && target.value in store.files {
      assert temp == {target.value};
      AddThenRemove(files0, target.value);
      store.files := store.files - {target.value};
    } else {
      assert temp == {};
    }
  }
}
