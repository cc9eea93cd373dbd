/**
 * The document parser (backend/app/services/document_parser.py): upload
 * validation, the page count, the page-by-page extraction dispatched on the
 * file suffix, and the legacy whole-text extractor.
 *
 * pdfplumber, Pillow and the file system are outside the model: an opened PDF
 * is the sequence of what its pages give (`PdfPage`), a PDF that cannot be
 * opened is None, and a file read is a `Result`.
 */
module DocumentParser {
  import opened Wrappers
  import opened Text

  /** The upload limit in megabytes and in bytes. */
  const MaxFileSizeMb: nat := 10
  const MaxSizeBytes: nat := MaxFileSizeMb * 1024 * 1024

  /** The configured extensions, in their configured order. */
  const AllowedExtensions: seq<string> := [".pdf", ".txt", ".png", ".jpg", ".jpeg", ".tiff"]

  /** The image suffixes the page extractor accepts. */
  const ImageSuffixes: set<string> := {".png", ".jpg", ".jpeg", ".tiff"}

  /** The PDF and text suffixes are not image suffixes. */
  lemma SuffixesDistinct()
    ensures ".pdf" !in ImageSuffixes && ".txt" !in ImageSuffixes
  {
    assert ".pdf"[1] == 'p' && ".txt"[1] == 't';
    assert forall x :: x in ImageSuffixes ==> |x| >= 4 && (x[1] == 'p' ==> x == ".png");
  }

  datatype Validation = Valid | Invalid(error: string)

  const TooLarge := "File too large. Maximum size is 10MB"

  /**
   * `validate_file` for an upload whose size is known (`size` None when the
   * upload has no size): an oversize file is refused before its extension is
   * looked at; otherwise the lowercased suffix must be one of the allowed ones.
   */
  function ValidateFile(size: Option<int>, filename: string): (r: Validation)
    ensures size.Some? && size.value > MaxSizeBytes ==> r == Invalid(TooLarge)
    ensures r.Valid? <==> (size.None? || size.value <= MaxSizeBytes) && Lower(Suffix(filename)) in AllowedExtensions
    ensures r.Invalid? && (size.None? || size.value <= MaxSizeBytes) ==>
      r.error == "Invalid file type. Allowed types: " + Join(", ", AllowedExtensions)
  {
    if size.Some? && size.value > MaxSizeBytes then Invalid(TooLarge)
    else if Lower(Suffix(filename)) !in AllowedExtensions then
      Invalid("Invalid file type. Allowed types: " + Join(", ", AllowedExtensions))
    else Valid
  }

  /** `get_page_count`: 1 for anything but a PDF, the PDF's page count, 0 when it cannot be opened. */
  function GetPageCount(filePath: string, pdfPages: Option<nat>): (n: nat)
    ensures Lower(Suffix(filePath)) != ".pdf" ==> n == 1
    ensures Lower(Suffix(filePath)) == ".pdf" && pdfPages.None? ==> n == 0
    ensures Lower(Suffix(filePath)) == ".pdf" && pdfPages.Some? ==> n == pdfPages.value
  {
    if Lower(Suffix(filePath)) != ".pdf" then 1
    else match pdfPages
      case Some(c) => c
      case None => 0
  }

  /** What `_extract_image` records for one image: where it was saved, or why it was not. */
  datatype ImageOutcome = Saved(path: string) | NotSaved(error: string)

  /** An image record: the page, the image's index on it, and the outcome. */
  datatype ImageInfo = ImageInfo(page: nat, index: nat, outcome: ImageOutcome)

  /** A table as pdfplumber gives it: rows of optional cells. */
  type Table = seq<seq<Option<string>>>

  /** One page of a PDF: what reading its text, its images and its tables and saving its snapshot gave. */
  datatype PdfPage = PdfPage(text: string, snapshot: Option<string>,
                             images: Result<seq<ImageOutcome>, string>, tables: Result<seq<Table>, string>)

  /** `PageContent` */
  datatype PageContent = PageContent(pageNum: nat, text: string, images: seq<ImageInfo>, tables: seq<Table>,
                                     snapshotPath: Option<string>)

  /** A new `PageContent`: no text, no images, no tables and no snapshot. */
  function NewPage(num: nat): (p: PageContent)
    ensures p.pageNum == num && p.text == "" && p.images == [] && p.tables == [] && p.snapshotPath.None?
  {
    PageContent(num, "", [], [], None)
  }

  /** The image records of page `num`, one per image in order, each tagged with its page and index. */
  function ImagesOf(num: nat, outcomes: seq<ImageOutcome>): (r: seq<ImageInfo>)
    ensures |r| == |outcomes|
    ensures forall k :: 0 <= k < |r| ==> r[k] == ImageInfo(num, k, outcomes[k])
  {
    if outcomes == [] then []
    else ImagesOf(num, outcomes[..|outcomes| - 1]) + [ImageInfo(num, |outcomes| - 1, outcomes[|outcomes| - 1])]
  }

  /** The content of page `num`: an image listing or a table extraction that raised leaves that part empty. */
  function PageOf(num: nat, page: PdfPage, saveSnapshots: bool): PageContent {
    PageContent(num, page.text,
                if page.images.Ok? then ImagesOf(num, page.images.value) else [],
                if page.tables.Ok? then page.tables.value else [],
                if saveSnapshots then page.snapshot else None)
  }

  /** The body of the page loop of `_extract_all_pdf_pages` for page `num`. */
  method ExtractPdfPage(num: nat, page: PdfPage, saveSnapshots: bool) returns (c: PageContent)
    ensures c == PageOf(num, page, saveSnapshots)
  {
    c := NewPage(num);
    if saveSnapshots {
      c := c.(snapshotPath := page.snapshot);
    }
    c := c.(text := if page.text != "" then page.text else "");
    if page.images.Ok? {
      var outcomes := page.images.value;
      for k := 0 to |outcomes|
        invariant c == PageOf(num, page, saveSnapshots).(images := ImagesOf(num, outcomes[..k]), tables := [])
      {
        assert outcomes[..k + 1][..k] == outcomes[..k];
        c := c.(images := c.images + [ImageInfo(num, k, outcomes[k])]);
      }
      assert outcomes[..|outcomes|] == outcomes;
    }
    if page.tables.Ok? && page.tables.value != [] {
      c := c.(tables := page.tables.value);
    }
  }

  /**
   * `_extract_all_pdf_pages`: an error when the PDF cannot be opened,
   * otherwise one content per page, numbered consecutively from 1.
   */
  method ExtractAllPdfPages(pdf: Option<seq<PdfPage>>, saveSnapshots: bool) returns (r: Result<seq<PageContent>, string>)
    ensures r.Err? <==> pdf.None?
    ensures r.Ok? ==> (|r.value| == |pdf.value|
      && forall i :: 0 <= i < |r.value| ==> r.value[i] == PageOf(i + 1, pdf.value[i], saveSnapshots))
  {
    if pdf.None? {
      return Err("the PDF could not be opened");
    }
    var pages := pdf.value;
    var contents: seq<PageContent> := [];
    for i := 0 to |pages|
      invariant |contents| == i
      invariant forall j :: 0 <= j < i ==> contents[j] == PageOf(j + 1, pages[j], saveSnapshots)
    {
      var c := ExtractPdfPage(i + 1, pages[i], saveSnapshots);
      contents := contents + [c];
    }
    r := Ok(contents);
  }

  /** Where an image upload is copied: the document's `pages` folder, `page_0001` and the lowercased suffix. */
  function ImageSnapshotPath(filePath: string, documentId: string): string {
    "uploads/" + documentId + "/pages/page_0001" + Lower(Suffix(filePath))
  }

  /**
   * `_extract_from_image`: one page, numbered 1, whose snapshot is the copy
   * when snapshots are kept and the copy succeeded, the original file otherwise.
   */
  function FromImage(filePath: string, documentId: string, saveSnapshots: bool, copied: bool): (p: PageContent)
    ensures p.pageNum == 1 && p.text == "" && p.images == [] && p.tables == []
    ensures p.snapshotPath == Some(if saveSnapshots && copied then ImageSnapshotPath(filePath, documentId) else filePath)
  {
    NewPage(1).(snapshotPath := Some(if saveSnapshots && copied then ImageSnapshotPath(filePath, documentId) else filePath))
  }

  /**
   * `extract_all_pages`: by lowercased suffix, the PDF's pages, one page
   * holding a text file's contents, one page for an image, and a ValueError
   * naming the suffix as written for anything else.
   */
  method ExtractAllPages(filePath: string, documentId: string, saveSnapshots: bool,
                         pdf: Option<seq<PdfPage>>, textFile: Result<string, string>, imageCopied: bool)
    returns (r: Result<seq<PageContent>, string>)
    ensures var sfx := Lower(Suffix(filePath));
      sfx != ".pdf" && sfx != ".txt" && sfx !in ImageSuffixes ==>
        r == Err("Unsupported file type: " + Suffix(filePath))
    ensures Lower(Suffix(filePath)) == ".pdf" ==>
      (r.Ok? <==> pdf.Some?) && (r.Ok? ==> (|r.value| == |pdf.value|
        && forall i :: 0 <= i < |r.value| ==> r.value[i] == PageOf(i + 1, pdf.value[i], saveSnapshots)))
    ensures Lower(Suffix(filePath)) == ".txt" ==>
      (textFile.Ok? ==> r == Ok([NewPage(1).(text := textFile.value)])) && (textFile.Err? ==> r == Err(textFile.error))
    ensures Lower(Suffix(filePath)) in ImageSuffixes ==>
      r == Ok([FromImage(filePath, documentId, saveSnapshots, imageCopied)])
    ensures r.Ok? && Lower(Suffix(filePath)) != ".pdf" ==> |r.value| == 1 && r.value[0].pageNum == 1
  {
    var sfx := Lower(Suffix(filePath));
    SuffixesDistinct();
    if sfx == ".pdf" {
      r := ExtractAllPdfPages(pdf, saveSnapshots);
    } else if sfx == ".txt" {
      if textFile.Err? {
        return Err(textFile.error);
      }
      var content := NewPage(1);
      content := content.(text := textFile.value);
      r := Ok([content]);
    } else if sfx in ImageSuffixes {
      r := Ok([FromImage(filePath, documentId, saveSnapshots, imageCopied)]);
    } else {
      r := Err("Unsupported file type: " + Suffix(filePath));
    }
  }

  /** The marker the legacy extractor puts before the text of page `n`. */
  function PageMarker(n: nat): string {
    "\n--- PAGE " + NatToString(n) + " ---\n"
  }

  /** The numbers of the pages that have text, in increasing order. */
  function PagesWithText(texts: seq<string>): (r: seq<nat>)
    ensures forall n :: n in r <==> 1 <= n <= |texts| && texts[n - 1] != ""
    ensures forall a, b :: 0 <= a < b < |r| ==> r[a] < r[b]
    ensures forall a :: 0 <= a < |r| ==> 1 <= r[a] <= |texts|
  {
    if texts == [] then []
    else
      var init := texts[..|texts| - 1];
      var r0 := PagesWithText(init);
      assert forall i :: 0 <= i < |init| ==> init[i] == texts[i];
      r0 + (if texts[|texts| - 1] != "" then [|texts|] else [])
  }

  /** The pieces the legacy extractor joins: a marker and the text, for each page with text. */
  function LegacyParts(texts: seq<string>): seq<string> {
    if texts == [] then []
    else
      var n := |texts|;
      LegacyParts(texts[..n - 1]) + (if texts[n - 1] != "" then [PageMarker(n), texts[n - 1]] else [])
  }

  /** `parts` holds, for the k-th of `pages`, that page's marker at 2k and its text at 2k+1. */
  predicate Shaped(texts: seq<string>, parts: seq<string>, pages: seq<nat>) {
    |parts| == 2 * |pages|
    && (forall k :: 0 <= k < |pages| ==> 1 <= pages[k] <= |texts|)
    && (forall k :: 0 <= k < |pages| ==>
          parts[2 * k] == PageMarker(pages[k]) && parts[2 * k + 1] == texts[pages[k] - 1])
  }

  /** The shape survives a last page without text. */
  lemma ShapedSkip(texts: seq<string>, parts: seq<string>, pages: seq<nat>)
    requires texts != [] && Shaped(texts[..|texts| - 1], parts, pages)
    ensures Shaped(texts, parts, pages)
  {
    var init := texts[..|texts| - 1];
    forall k | 0 <= k < |pages|
      ensures parts[2 * k + 1] == texts[pages[k] - 1]
    {
      assert init[pages[k] - 1] == texts[pages[k] - 1];
    }
  }

  /** The shape survives a last page with text, which adds its marker and its text. */
  lemma ShapedTake(texts: seq<string>, parts: seq<string>, pages: seq<nat>)
    requires texts != [] && Shaped(texts[..|texts| - 1], parts, pages)
    ensures Shaped(texts, parts + [PageMarker(|texts|), texts[|texts| - 1]], pages + [|texts|])
  {
    ShapedSkip(texts, parts, pages);
    var parts', pages' := parts + [PageMarker(|texts|), texts[|texts| - 1]], pages + [|texts|];
    forall k | 0 <= k < |pages'|
      ensures parts'[2 * k] == PageMarker(pages'[k]) && parts'[2 * k + 1] == texts[pages'[k] - 1]
    {
      if k < |pages| {
        assert parts'[2 * k] == parts[2 * k] && parts'[2 * k + 1] == parts[2 * k + 1] && pages'[k] == pages[k];
      }
    }
  }

  /**
   * The legacy pieces are, for the k-th page with text, its marker at 2k and
   * its text at 2k+1: a page without text gets no marker.
   */
  lemma {:induction false} LegacyPartsShape(texts: seq<string>)
    ensures |LegacyParts(texts)| == 2 * |PagesWithText(texts)|
    ensures forall k :: 0 <= k < |PagesWithText(texts)| ==>
      LegacyParts(texts)[2 * k] == PageMarker(PagesWithText(texts)[k])
      && LegacyParts(texts)[2 * k + 1] == texts[PagesWithText(texts)[k] - 1]
  {
    LegacyPartsShaped(texts);
  }

  /** The shape, stated once for the inductive step. */
  lemma {:induction false} LegacyPartsShaped(texts: seq<string>)
    ensures Shaped(texts, LegacyParts(texts), PagesWithText(texts))
  {
    if texts != [] {
      var n := |texts|;
      var init := texts[..n - 1];
      LegacyPartsShaped(init);
      var p0, q0 := LegacyParts(init), PagesWithText(init);
      if texts[n - 1] != "" {
        ShapedTake(texts, p0, q0);
        assert LegacyParts(texts) == p0 + [PageMarker(n), texts[n - 1]];
        assert PagesWithText(texts) == q0 + [n];
      } else {
        ShapedSkip(texts, p0, q0);
        assert LegacyParts(texts) == p0;
        assert PagesWithText(texts) == q0;
      }
    }
  }

  /**
   * `_extract_from_pdf`: an error when the PDF cannot be opened, otherwise
   * the pieces for the pages with text joined by newlines.
   */
  method ExtractFromPdf(pdf: Option<seq<string>>) returns (r: Result<string, string>)
    ensures r.Err? <==> pdf.None?
    ensures r.Ok? ==> r.value == Join("\n", LegacyParts(pdf.value))
  {
    if pdf.None? {
      return Err("the PDF could not be opened");
    }
    var texts := pdf.value;
    var parts: seq<string> := [];
    for i := 0 to |texts|
      invariant parts == LegacyParts(texts[..i])
    {
      assert texts[..i + 1][..i] == texts[..i];
      if texts[i] != "" {
        parts := parts + [PageMarker(i + 1), texts[i]];
      }
    }
    assert texts[..|texts|] == texts;
    r := Ok(Join("\n", parts));
  }

  /** `extract_text`: a PDF's text, a text file's contents, a ValueError for any other suffix. */
  method ExtractText(filePath: string, pdf: Option<seq<string>>, textFile: Result<string, string>)
    returns (r: Result<string, string>)
    ensures Lower(Suffix(filePath)) == ".pdf" ==> (r.Ok? <==> pdf.Some?) && (r.Ok? ==> r.value == Join("\n", LegacyParts(pdf.value)))
    ensures Lower(Suffix(filePath)) == ".txt" ==> r == textFile
    ensures Lower(Suffix(filePath)) != ".pdf" && Lower(Suffix(filePath)) != ".txt" ==>
      r == Err("Unsupported file type: " + Suffix(filePath))
  {
    var sfx := Lower(Suffix(filePath));
    if sfx == ".pdf" {
      r := ExtractFromPdf(pdf);
    } else if sfx == ".txt" {
      r := textFile;
    } else {
      r := Err("Unsupported file type: " + Suffix(filePath));
    }
  }
}
