/**
 * The document processor (backend/app/services/document_processor.py): the
 * section scan, the concept fallback, the choice between a page's own text and
 * its OCR text, the assembly of the raw text, and the step sequence of
 * `process_document` with its single failure path. The parser, the OCR engine,
 * the equation patterns, the equation analyser, the language model and the
 * database are inputs: what each returns, or the message of what it raises.
 */
module DocumentProcessor {
  import opened Wrappers
  import opened Text
  import EquationExtractor

  // ---------------------------------------------------------------------------
  // _identify_sections

  datatype Section = Section(level: nat, title: string, line: nat)

  /** The number of `c` characters that start `s`. */
  function LeadingRun(s: string, c: char): (k: nat)
    ensures k <= |s| && (forall i :: 0 <= i < k ==> s[i] == c) && (k < |s| ==> s[k] != c)
  {
    if s != [] && s[0] == c then 1 + LeadingRun(s[1..], c) else 0
  }

  /** `s.count(c)` */
  function CountChar(s: string, c: char): (n: nat)
    ensures n <= |s|
    ensures n == 0 <==> c !in s
  {
    if s == [] then 0
    else
      assert s == [s[0]] + s[1..];
      (if s[0] == c then 1 else 0) + CountChar(s[1..], c)
  }

  /**
   * The section line `i` opens, if any: a stripped line starting with `#` is a
   * heading whose level is its number of leading `#`; a stripped line starting
   * with a digit with a `.` among its first ten characters is a numbered section
   * whose level is its number of `.`.
   */
  function LineSection(raw: string, i: nat): (r: Option<Section>)
    ensures r.Some? ==> r.value.line == i
  {
    var line := Strip(raw);
    if StartsWith(line, "#") then
      var k := LeadingRun(line, '#');
      Some(Section(k, Strip(line[k..]), i))
    else if line != [] && IsDigit(line[0]) && '.' in Take(line, 10) then
      Some(Section(CountChar(line, '.'), line, i))
    else None
  }

  /** A heading line: level at least one, the count of leading `#`, and the rest of the line stripped as title. */
  lemma HeadingSection(raw: string, i: nat)
    requires StartsWith(Strip(raw), "#")
    ensures var line := Strip(raw);
      var k := LeadingRun(line, '#');
      LineSection(raw, i) == Some(Section(k, Strip(line[k..]), i))
      && 1 <= k && (forall j :: 0 <= j < k ==> line[j] == '#') && (k < |line| ==> line[k] != '#')
  {
    assert Strip(raw)[0] == "#"[0];
  }

  /** A numbered line: its level is the number of `.` in it, at least one, and the title is the stripped line. */
  lemma NumberedSection(raw: string, i: nat)
    requires var line := Strip(raw);
      !StartsWith(line, "#") && line != [] && IsDigit(line[0]) && '.' in Take(line, 10)
    ensures var line := Strip(raw);
      LineSection(raw, i) == Some(Section(CountChar(line, '.'), line, i)) && CountChar(line, '.') >= 1
  {
    var line := Strip(raw);
    assert Take(line, 10) == line[..|Take(line, 10)|];
    var j :| 0 <= j < |Take(line, 10)| && Take(line, 10)[j] == '.';
    assert line[j] == '.';
  }

  /** Any other line opens no section. */
  lemma PlainLine(raw: string, i: nat)
    requires var line := Strip(raw);
      !StartsWith(line, "#") && !(line != [] && IsDigit(line[0]) && '.' in Take(line, 10))
    ensures LineSection(raw, i) == None
  {
  }

  /** The sections of the first `n` lines, in line order. */
  function SectionsUpTo(lines: seq<string>, n: nat): seq<Section>
    requires n <= |lines|
  {
    if n == 0 then []
    else
      SectionsUpTo(lines, n - 1)
      + (match LineSection(lines[n - 1], n - 1) case Some(s) => [s] case None => [])
  }

  /** `_identify_sections`: one pass over the lines of the text. */
  method IdentifySections(text: string) returns (sections: seq<Section>)
    ensures sections == SectionsUpTo(Split(text, '\n'), |Split(text, '\n')|)
  {
    var lines := Split(text, '\n');
    sections := [];
    for i := 0 to |lines|
      invariant sections == SectionsUpTo(lines, i)
    {
      var line := Strip(lines[i]);
      if StartsWith(line, "#") {
        var level := LeadingRun(line, '#');
        var title := Strip(line[level..]);
        sections := sections + [Section(level, title, i)];
      } else if line != [] && IsDigit(line[0]) && '.' in Take(line, 10) {
        sections := sections + [Section(CountChar(line, '.'), line, i)];
      }
    }
  }

  /** The sections come in strictly increasing line order, so there is at most one per line. */
  lemma {:induction false} SectionsInLineOrder(lines: seq<string>, n: nat)
    requires n <= |lines|
    ensures forall a, b :: 0 <= a < b < |SectionsUpTo(lines, n)| ==>
      SectionsUpTo(lines, n)[a].line < SectionsUpTo(lines, n)[b].line < n
  {
    if n == 0 {
      assert SectionsUpTo(lines, n) == [];
    } else {
      SectionsInLineOrder(lines, n - 1);
      SectionsBelow(lines, n - 1);
      var prev := SectionsUpTo(lines, n - 1);
      var o := LineSection(lines[n - 1], n - 1);
      var r := SectionsUpTo(lines, n);
      if o.Some? {
        assert r == prev + [o.value];
        forall a, b | 0 <= a < b < |r|
          ensures r[a].line < r[b].line < n
        {
          assert r[a] == prev[a];
          if b < |prev| {
            assert r[b] == prev[b];
          } else {
            assert r[b] == o.value;
          }
        }
      } else {
        assert r == prev;
      }
    }
  }

  /** Every section found in the first `n` lines is the one its line opens. */
  lemma {:induction false} SectionsBelow(lines: seq<string>, n: nat)
    requires n <= |lines|
    ensures forall a :: 0 <= a < |SectionsUpTo(lines, n)| ==> SectionsUpTo(lines, n)[a].line < n
    ensures forall a :: 0 <= a < |SectionsUpTo(lines, n)| ==>
      LineSection(lines[SectionsUpTo(lines, n)[a].line], SectionsUpTo(lines, n)[a].line) == Some(SectionsUpTo(lines, n)[a])
  {
    if n > 0 {
      SectionsBelow(lines, n - 1);
      var prev := SectionsUpTo(lines, n - 1);
      var o := LineSection(lines[n - 1], n - 1);
      if o.Some? {
        var r := SectionsUpTo(lines, n);
        assert r == prev + [o.value];
        assert forall a :: 0 <= a < |prev| ==> r[a] == prev[a];
      } else {
        assert SectionsUpTo(lines, n) == prev;
      }
    }
  }

  /** The section line `i` opens is among those of the first `n` lines, for any `n` past `i`. */
  lemma {:induction false} SectionFound(lines: seq<string>, n: nat, i: nat, s: Section)
    requires i < n <= |lines| && LineSection(lines[i], i) == Some(s)
    ensures s in SectionsUpTo(lines, n)
  {
    var prev := SectionsUpTo(lines, n - 1);
    var added := match LineSection(lines[n - 1], n - 1) case Some(t) => [t] case None => [];
    assert SectionsUpTo(lines, n) == prev + added;
    if i < n - 1 {
      SectionFound(lines, n - 1, i, s);
    } else {
      assert added == [s];
    }
  }

  /** Every line among the first `n` that opens a section has it in the result. */
  lemma SectionsComplete(lines: seq<string>, n: nat)
    requires n <= |lines|
    ensures forall i :: 0 <= i < n && LineSection(lines[i], i).Some? ==> LineSection(lines[i], i).value in SectionsUpTo(lines, n)
  {
    forall i | 0 <= i < n && LineSection(lines[i], i).Some?
      ensures LineSection(lines[i], i).value in SectionsUpTo(lines, n)
    {
      SectionFound(lines, n, i, LineSection(lines[i], i).value);
    }
  }

  // ---------------------------------------------------------------------------
  // _extract_concepts_fallback

  datatype Concept = Concept(term: string, definition: string)

  /** The common physics and mathematics terms the fallback looks for, in order. */
  const CommonTerms: seq<Concept> := [
    Concept("Force", "Physical quantity that causes an object to accelerate"),
    Concept("Energy", "Capacity to do work"),
    Concept("Velocity", "Rate of change of position"),
    Concept("Acceleration", "Rate of change of velocity"),
    Concept("Mass", "Measure of matter in an object")
  ]

  predicate Mentions(text: string, c: Concept) {
    Contains(Lower(text), Lower(c.term))
  }

  /** The terms among `terms` that the text mentions, case-insensitively, in their order. */
  function Mentioned(terms: seq<Concept>, text: string): seq<Concept> {
    if terms == [] then []
    else
      var last := terms[|terms| - 1];
      Mentioned(terms[..|terms| - 1], text) + (if Mentions(text, last) then [last] else [])
  }

  function FirstFive(cs: seq<Concept>): (r: seq<Concept>)
    ensures |r| <= 5 && |r| <= |cs| && r == cs[..|r|] && (|cs| <= 5 ==> r == cs)
  {
    if |cs| <= 5 then cs else cs[..5]
  }

  /** `_extract_concepts_fallback` */
  method ExtractConceptsFallback(text: string) returns (concepts: seq<Concept>)
    ensures concepts == FirstFive(Mentioned(CommonTerms, text))
  {
    concepts := [];
    for k := 0 to |CommonTerms|
      invariant concepts == Mentioned(CommonTerms[..k], text)
    {
      var c := CommonTerms[k];
      assert CommonTerms[..k + 1][..k] == CommonTerms[..k] && CommonTerms[..k + 1][k] == c;
      if Contains(Lower(text), Lower(c.term)) {
        concepts := concepts + [c];
      }
    }
    assert CommonTerms[..|CommonTerms|] == CommonTerms;
    concepts := FirstFive(concepts);
  }

  /** The filter keeps exactly the mentioned terms, each at most as often as the list has it. */
  lemma {:induction false} MentionedMeaning(terms: seq<Concept>, text: string)
    ensures |Mentioned(terms, text)| <= |terms|
    ensures forall c :: c in Mentioned(terms, text) <==> c in terms && Mentions(text, c)
    ensures forall c :: multiset(Mentioned(terms, text))[c] <= multiset(terms)[c]
  {
    if terms != [] {
      var init := terms[..|terms| - 1];
      var last := terms[|terms| - 1];
      assert terms == init + [last];
      MentionedMeaning(init, text);
    }
  }

  /** The fallback returns at most five concepts, each a common term the text mentions, and all of them. */
  lemma FallbackConcepts(text: string)
    ensures var r := FirstFive(Mentioned(CommonTerms, text));
      |r| <= 5 && forall c :: c in r <==> c in CommonTerms && Mentions(text, c)
  {
    MentionedMeaning(CommonTerms, text);
  }

  // ---------------------------------------------------------------------------
  // per-page text choice and raw-text assembly

  /** What the OCR engine returns for a page snapshot: its text and its number of low-confidence segments. */
  datatype OcrReading = OcrReading(text: string, lowConfidenceSegments: nat)

  /**
   * A page as the parser returns it, with `ocr` the engine's (truthy) result for
   * its snapshot; the engine is only asked when there is a snapshot.
   */
  datatype PageInput = PageInput(pageNum: int, text: string, images: seq<string>, snapshot: Option<string>,
                                 ocr: Option<OcrReading>)

  function OcrOf(p: PageInput): Option<OcrReading> {
    if p.snapshot.Some? then p.ocr else None
  }

  /**
   * The text kept for a page: the OCR text replaces the page text when it is not
   * empty and the page text is empty or shorter.
   */
  function ChosenText(pageText: string, ocr: Option<OcrReading>): (r: string)
    ensures r == pageText || (ocr.Some? && r == ocr.value.text)
    ensures |r| >= |pageText|
    ensures r == "" ==> pageText == "" && (ocr.None? || ocr.value.text == "")
  {
    if ocr.Some? && ocr.value.text != "" && (pageText == "" || |ocr.value.text| > |pageText|) then ocr.value.text
    else pageText
  }

  /** The OCR text is kept exactly when the condition holds, unless it equals the page text anyway. */
  lemma OcrReplacesIff(pageText: string, ocr: Option<OcrReading>)
    requires ocr.Some? && ocr.value.text != pageText
    ensures ChosenText(pageText, ocr) == ocr.value.text <==>
      ocr.value.text != "" && (pageText == "" || |ocr.value.text| > |pageText|)
  {
  }

  function PageMarker(n: int): string {
    "\n\n=== PAGE " + IntToString(n) + " ===\n\n"
  }

  function Chosen(p: PageInput): string {
    ChosenText(p.text, OcrOf(p))
  }

  /** A page's two pieces of the raw text: its marker and its chosen text. */
  function PageParts(p: PageInput): seq<string> {
    [PageMarker(p.pageNum), Chosen(p)]
  }

  /** The pieces of the raw text, page after page. */
  function TextParts(pages: seq<PageInput>): seq<string> {
    FlatMap(pages, PageParts)
  }

  /** The raw text: the pieces joined with nothing between them. */
  function RawText(pages: seq<PageInput>): string {
    Join("", TextParts(pages))
  }

  /** `page_texts`: each page number mapped to its chosen text (a later page with the same number wins). */
  function PageTexts(pages: seq<PageInput>): map<int, string> {
    if pages == [] then map[]
    else
      var last := pages[|pages| - 1];
      PageTexts(pages[..|pages| - 1])[last.pageNum := Chosen(last)]
  }

  function ImagesOf(p: PageInput): seq<string> {
    p.images
  }

  /** `all_images`: the images of every page, page after page. */
  function AllImages(pages: seq<PageInput>): seq<string> {
    FlatMap(pages, ImagesOf)
  }

  /** `page_snapshots`: page number and path of every page that has a snapshot. */
  function Snapshots(pages: seq<PageInput>): seq<(int, string)> {
    if pages == [] then []
    else
      var last := pages[|pages| - 1];
      Snapshots(pages[..|pages| - 1]) + (if last.snapshot.Some? then [(last.pageNum, last.snapshot.value)] else [])
  }

  /** `ocr_results`: each page number with an OCR result mapped to it. */
  function OcrResults(pages: seq<PageInput>): map<int, OcrReading> {
    if pages == [] then map[]
    else
      var last := pages[|pages| - 1];
      var prev := OcrResults(pages[..|pages| - 1]);
      if OcrOf(last).Some? then prev[last.pageNum := OcrOf(last).value] else prev
  }

  function OcrPages(pages: seq<PageInput>): nat {
    if pages == [] then 0
    else OcrPages(pages[..|pages| - 1]) + (if OcrOf(pages[|pages| - 1]).Some? then 1 else 0)
  }

  function LowConfidencePages(pages: seq<PageInput>): nat {
    if pages == [] then 0
    else
      var ocr := OcrOf(pages[|pages| - 1]);
      LowConfidencePages(pages[..|pages| - 1]) + (if ocr.Some? && ocr.value.lowConfidenceSegments > 0 then 1 else 0)
  }

  /** The low-confidence segments of all OCR results (page numbers are distinct, so one per page). */
  function LowConfidenceSegments(pages: seq<PageInput>): nat {
    if pages == [] then 0
    else
      var ocr := OcrOf(pages[|pages| - 1]);
      LowConfidenceSegments(pages[..|pages| - 1]) + (if ocr.Some? then ocr.value.lowConfidenceSegments else 0)
  }

  /** Everything the page loop of `process_document` collects. */
  datatype Collected = Collected(rawText: string, pageTexts: map<int, string>, images: seq<string>,
                                 snapshots: seq<(int, string)>, ocrResults: map<int, OcrReading>,
                                 ocrPages: nat, lowConfidencePages: nat, lowConfidenceSegments: nat)

  /** The page loop of `process_document` and the joining of the text parts after it. */
  method CollectPages(pages: seq<PageInput>) returns (c: Collected)
    ensures c.rawText == RawText(pages) && c.pageTexts == PageTexts(pages)
    ensures c.images == AllImages(pages) && c.snapshots == Snapshots(pages) && c.ocrResults == OcrResults(pages)
    ensures c.ocrPages == OcrPages(pages) && c.lowConfidencePages == LowConfidencePages(pages)
    ensures c.lowConfidenceSegments == LowConfidenceSegments(pages)
  {
    var parts: seq<string> := [];
    var images: seq<string> := [];
    var pageTexts: map<int, string> := map[];
    var snapshots: seq<(int, string)> := [];
    var ocrResults: map<int, OcrReading> := map[];
    var ocrPages, lowPages, lowSegments := 0, 0, 0;
    for k := 0 to |pages|
      invariant parts == TextParts(pages[..k]) && images == AllImages(pages[..k])
      invariant pageTexts == PageTexts(pages[..k]) && snapshots == Snapshots(pages[..k])
      invariant ocrResults == OcrResults(pages[..k]) && ocrPages == OcrPages(pages[..k])
      invariant lowPages == LowConfidencePages(pages[..k]) && lowSegments == LowConfidenceSegments(pages[..k])
    {
      var page := pages[k];
      assert pages[..k + 1][..k] == pages[..k] && pages[..k + 1][k] == page;
      if page.snapshot.Some? {
        snapshots := snapshots + [(page.pageNum, page.snapshot.value)];
      }
      var ocr: Option<OcrReading> := None;
      if page.snapshot.Some? {
        ocr := page.ocr;
        if ocr.Some? {
          ocrResults := ocrResults[page.pageNum := ocr.value];
          ocrPages := ocrPages + 1;
          lowSegments := lowSegments + ocr.value.lowConfidenceSegments;
          if ocr.value.lowConfidenceSegments > 0 {
            lowPages := lowPages + 1;
          }
        }
      }
      var choice := page.text;
      if ocr.Some? && ocr.value.text != "" {
        var ocrText := ocr.value.text;
        if choice == "" || |ocrText| > |choice| {
          choice := ocrText;
        }
      }
      parts := parts + [PageMarker(page.pageNum), choice];
      pageTexts := pageTexts[page.pageNum := choice];
      images := images + page.images;
    }
    assert pages[..|pages|] == pages;
    c := Collected(Join("", parts), pageTexts, images, snapshots, ocrResults, ocrPages, lowPages, lowSegments);
  }

  /** `"".join` of a list that starts with `x` is `x` followed by the join of the rest. */
  lemma JoinEmptyCons(x: string, ys: seq<string>)
    ensures Join("", [x] + ys) == x + Join("", ys)
  {
    if ys == [] {
      assert [x] + ys == [x];
    } else {
      assert ([x] + ys)[1..] == ys;
    }
  }

  /** `"".join` of two lists one after the other is the first join followed by the second. */
  lemma {:induction false} JoinEmptyConcat(xs: seq<string>, ys: seq<string>)
    ensures Join("", xs + ys) == Join("", xs) + Join("", ys)
  {
    if xs == [] {
      assert xs + ys == ys;
    } else {
      assert xs + ys == [xs[0]] + (xs[1..] + ys);
      assert xs == [xs[0]] + xs[1..];
      JoinEmptyConcat(xs[1..], ys);
      JoinEmptyCons(xs[0], xs[1..] + ys);
      JoinEmptyCons(xs[0], xs[1..]);
    }
  }

  /** Raw text over two runs of pages is the raw text of the first run followed by that of the second. */
  lemma RawTextConcat(a: seq<PageInput>, b: seq<PageInput>)
    ensures RawText(a + b) == RawText(a) + RawText(b)
  {
    FlatMapConcat(a, b, PageParts);
    JoinEmptyConcat(TextParts(a), TextParts(b));
  }

  /** The raw text of one page is its marker followed by its chosen text. */
  lemma RawTextSingle(p: PageInput)
    ensures RawText([p]) == PageMarker(p.pageNum) + Chosen(p)
  {
    var m, c := PageMarker(p.pageNum), Chosen(p);
    assert [p][..0] == [];
    assert TextParts([p]) == FlatMap([], PageParts) + PageParts(p) == [m] + [c];
    JoinEmptyCons(m, [c]);
  }

  /** Page `k`'s marker and chosen text sit in the raw text right after the text of the pages before it. */
  lemma PageInRawText(pages: seq<PageInput>, k: nat)
    requires k < |pages|
    ensures RawText(pages) == RawText(pages[..k]) + PageMarker(pages[k].pageNum) + Chosen(pages[k]) + RawText(pages[k + 1..])
  {
    var p := pages[k];
    var before, after := pages[..k], pages[k + 1..];
    assert pages == (before + [p]) + after;
    RawTextConcat(before + [p], after);
    RawTextConcat(before, [p]);
    RawTextSingle(p);
    var rb, ra := RawText(before), RawText(after);
    assert RawText(pages) == (rb + (PageMarker(p.pageNum) + Chosen(p))) + ra;
  }

  /** The keys of `page_texts` are exactly the page numbers. */
  lemma {:induction false} PageTextsKeys(pages: seq<PageInput>)
    ensures forall n :: n in PageTexts(pages) <==> exists k :: 0 <= k < |pages| && pages[k].pageNum == n
  {
    if pages != [] {
      var init, last := pages[..|pages| - 1], pages[|pages| - 1];
      PageTextsKeys(init);
      assert PageTexts(pages) == PageTexts(init)[last.pageNum := Chosen(last)];
      forall n
        ensures n in PageTexts(pages) <==> exists k :: 0 <= k < |pages| && pages[k].pageNum == n
      {
        if n in PageTexts(init) {
          var k :| 0 <= k < |init| && init[k].pageNum == n;
          assert pages[k] == init[k];
        }
        if exists k :: 0 <= k < |pages| && pages[k].pageNum == n {
          var k :| 0 <= k < |pages| && pages[k].pageNum == n;
          if k < |init| {
            assert init[k] == pages[k];
          }
        }
      }
    }
  }

  /** With distinct page numbers, `page_texts` maps each page's number to that page's chosen text. */
  lemma {:induction false} PageTextsLookup(pages: seq<PageInput>)
    requires forall i, j :: 0 <= i < j < |pages| ==> pages[i].pageNum != pages[j].pageNum
    ensures forall k :: 0 <= k < |pages| ==> pages[k].pageNum in PageTexts(pages) && PageTexts(pages)[pages[k].pageNum] == Chosen(pages[k])
  {
    if pages != [] {
      var init, last := pages[..|pages| - 1], pages[|pages| - 1];
      PageTextsLookup(init);
      assert PageTexts(pages) == PageTexts(init)[last.pageNum := Chosen(last)];
      forall k | 0 <= k < |pages|
        ensures pages[k].pageNum in PageTexts(pages) && PageTexts(pages)[pages[k].pageNum] == Chosen(pages[k])
      {
        if k < |init| {
          assert init[k] == pages[k];
          assert pages[k].pageNum != last.pageNum;
        }
      }
    }
  }

  // ---------------------------------------------------------------------------
  // process_document

  /** Equations analysed upfront at most. */
  const AnalysisLimit := 20

  /** What analysing one saved equation comes to. */
  datatype AnalysisOutcome =
    | Unparsed      // parse_to_sympy gave nothing
    | Unsuccessful  // analyze_equation reported no success
    | Analysed      // an analysis was saved
    | Raised        // an exception, logged and skipped

  /** The outcome for equation `k`; an equation the list does not cover is one that does not parse. */
  function OutcomeAt(outcomes: seq<AnalysisOutcome>, k: nat): AnalysisOutcome {
    if k < |outcomes| then outcomes[k] else Unparsed
  }

  function CountAnalysed(outcomes: seq<AnalysisOutcome>, n: nat): (c: nat)
    ensures c <= n
  {
    if n == 0 then 0 else CountAnalysed(outcomes, n - 1) + (if OutcomeAt(outcomes, n - 1) == Analysed then 1 else 0)
  }

  /** Step 5: the analysis loop over the first twenty saved equations. */
  method AnalyseEquations(count: nat, outcomes: seq<AnalysisOutcome>) returns (analysed: nat)
    ensures analysed == CountAnalysed(outcomes, Min(count, AnalysisLimit))
    ensures analysed <= AnalysisLimit && analysed <= count
  {
    analysed := 0;
    var limit := Min(count, AnalysisLimit);
    for k := 0 to limit
      invariant analysed == CountAnalysed(outcomes, k)
    {
      match OutcomeAt(outcomes, k)
      case Analysed =>
        analysed := analysed + 1;
      case _ =>
    }
  }

  /** An equation as saved: the extracted fields and the section it falls in. */
  datatype EquationRecord = EquationRecord(latex: string, context: string, position: nat, sectionTitle: string)

  /** The section-pattern matches before a position, per pattern; a position without an entry has none. */
  function GroupsAt(sectionMatches: map<nat, seq<seq<string>>>, position: nat): seq<seq<string>> {
    if position in sectionMatches then sectionMatches[position] else []
  }

  /** Step 4's rows: one record per extracted equation, in order, each with the section its position falls in. */
  function SavedEquations(eqs: seq<EquationExtractor.Equation>, sectionMatches: map<nat, seq<seq<string>>>)
    : (r: seq<EquationRecord>)
    ensures |r| == |eqs|
  {
    if eqs == [] then []
    else
      var eq := eqs[|eqs| - 1];
      SavedEquations(eqs[..|eqs| - 1], sectionMatches)
      + [EquationRecord(eq.latex, eq.context, eq.position, EquationExtractor.SectionOf(GroupsAt(sectionMatches, eq.position)))]
  }

  /** Each saved row carries its equation's fields unchanged and the section of its position. */
  lemma {:induction false} SavedEquationsMeaning(eqs: seq<EquationExtractor.Equation>, sectionMatches: map<nat, seq<seq<string>>>)
    ensures var r := SavedEquations(eqs, sectionMatches);
      forall k :: 0 <= k < |eqs| ==>
           (r[k].latex == eqs[k].latex && r[k].context == eqs[k].context && r[k].position == eqs[k].position
            && r[k].sectionTitle == EquationExtractor.SectionOf(GroupsAt(sectionMatches, eqs[k].position)))
  {
    if eqs != [] {
      var init := eqs[..|eqs| - 1];
      SavedEquationsMeaning(init, sectionMatches);
      var r := SavedEquations(eqs, sectionMatches);
      assert forall k :: 0 <= k < |init| ==> r[k] == SavedEquations(init, sectionMatches)[k] && eqs[k] == init[k];
    }
  }

  /** Step 4: the loop that builds the equation rows. */
  method SaveEquations(eqs: seq<EquationExtractor.Equation>, sectionMatches: map<nat, seq<seq<string>>>)
    returns (records: seq<EquationRecord>)
    ensures records == SavedEquations(eqs, sectionMatches)
  {
    records := [];
    for k := 0 to |eqs|
      invariant records == SavedEquations(eqs[..k], sectionMatches)
    {
      var eq := eqs[k];
      assert eqs[..k + 1][..k] == eqs[..k] && eqs[..k + 1][k] == eq;
      var section := EquationExtractor.IdentifySection(GroupsAt(sectionMatches, eq.position));
      records := records + [EquationRecord(eq.latex, eq.context, eq.position, section)];
    }
    assert eqs[..|eqs|] == eqs;
  }

  /** What the language model's reply to the concept prompt parses as. */
  datatype ConceptReply =
    | JsonList(items: seq<Concept>)  // a JSON array
    | JsonOther                      // valid JSON that is not an array
    | Unusable                       // no reply, invalid JSON, or an exception

  /** `_extract_concepts`: the parsed array, nothing for other JSON, the fallback otherwise. */
  function Concepts(reply: ConceptReply, text: string): (r: seq<Concept>)
    ensures reply.JsonList? ==> r == reply.items
    ensures reply.JsonOther? ==> r == []
    ensures reply.Unusable? ==> |r| <= 5 && forall c :: c in r ==> c in CommonTerms && Mentions(text, c)
  {
    match reply
    case JsonList(items) => items
    case JsonOther => []
    case Unusable =>
      FallbackConcepts(text);
      FirstFive(Mentioned(CommonTerms, text))
  }

  /** The status string of a processing run. */
  datatype Status = Processing | Completed | Failed

  /** The `results` summary `process_document` returns. */
  datatype Summary = Summary(status: Status, totalPages: nat, pagesProcessed: nat, equationsFound: nat,
                             equationsAnalyzed: nat, imagesExtracted: nat, conceptsExtracted: nat,
                             sectionsIdentified: nat, ocrPages: nat, ocrLowConfidencePages: nat,
                             ocrLowConfidenceSegments: nat, errors: seq<string>)

  /** The document metadata written on success. */
  datatype Metadata = Metadata(pageCount: nat, pagesProcessed: nat, equationCount: nat, imageCount: nat,
                               characterCount: nat, concepts: seq<Concept>, sections: seq<Section>,
                               images: seq<string>, pageTexts: map<int, string>, snapshots: seq<(int, string)>,
                               ocrResults: map<int, OcrReading>, ocrLowConfidenceSegments: nat)

  /**
   * The stored state `process_document` writes: the document's raw text and
   * metadata and the equation rows saved for it. A rollback restores all three.
   */
  class ProcessedDocument {
    var rawText: Option<string>
    var metadata: Option<Metadata>
    var equations: seq<EquationRecord>

    constructor ()
      ensures rawText == None && metadata == None && equations == []
    {
      rawText := None;
      metadata := None;
      equations := [];
    }
  }

  /** The inputs from the collaborators of one `process_document` run. */
  datatype Collaborators = Collaborators(
    pageCount: nat,                                  // get_page_count
    pages: Result<seq<PageInput>, string>,           // extract_all_pages, or the message it raises
    found: seq<seq<EquationExtractor.RegexMatch>>,   // the equation patterns' matches in the raw text
    sectionMatches: map<nat, seq<seq<string>>>,      // the section patterns' groups before each position
    flushError: Option<string>,                      // db.flush raising
    outcomes: seq<AnalysisOutcome>,                  // the analysis of each saved equation
    conceptReply: ConceptReply,
    commitError: Option<string>)                     // db.commit raising

  /** `process_document` */
  method ProcessDocument(doc: ProcessedDocument, io: Collaborators) returns (results: Summary)
    modifies doc
    ensures results.status == Completed || results.status == Failed
    ensures results.status == Failed <==> io.pages.Err? || io.flushError.Some? || io.commitError.Some?
    ensures results.status == Failed ==> |results.errors| == 1
    ensures io.pages.Ok? && io.flushError.Some? ==> results.errors == [io.flushError.value]
    ensures io.pages.Ok? && io.flushError.None? && io.commitError.Some? ==> results.errors == [io.commitError.value]
    ensures results.status == Completed ==> results.errors == []
    ensures results.status == Failed ==>
      doc.rawText == old(doc.rawText) && doc.metadata == old(doc.metadata) && doc.equations == old(doc.equations)
    ensures io.pages.Err? ==>
      (results.errors == [io.pages.error] && results.totalPages == io.pageCount && results.pagesProcessed == 0)
    ensures io.pages.Ok? ==> var pages := io.pages.value;
      results.totalPages == io.pageCount && results.pagesProcessed == |pages|
      && results.imagesExtracted == |AllImages(pages)| && results.ocrPages == OcrPages(pages)
      && results.ocrLowConfidencePages == LowConfidencePages(pages)
      && results.ocrLowConfidenceSegments == LowConfidenceSegments(pages)
      && results.equationsFound == |EquationExtractor.Extracted(RawText(pages), io.found)|
    ensures io.pages.Ok? && io.flushError.None? ==> var pages := io.pages.value;
      var eqs := EquationExtractor.Extracted(RawText(pages), io.found);
      results.equationsAnalyzed == CountAnalysed(io.outcomes, Min(|eqs|, AnalysisLimit))
      && results.equationsAnalyzed <= AnalysisLimit
    ensures results.status == Completed ==> var pages := io.pages.value;
      var raw := RawText(pages);
      results.conceptsExtracted == |Concepts(io.conceptReply, raw)|
      && results.sectionsIdentified == |SectionsUpTo(Split(raw, '\n'), |Split(raw, '\n')|)|
      && doc.rawText == Some(raw)
      && doc.metadata == Some(Metadata(io.pageCount, |pages|, results.equationsFound, |AllImages(pages)|, |raw|,
                                       Concepts(io.conceptReply, raw), SectionsUpTo(Split(raw, '\n'), |Split(raw, '\n')|),
                                       AllImages(pages), PageTexts(pages), Snapshots(pages), OcrResults(pages),
                                       LowConfidenceSegments(pages)))
      && doc.equations == SavedEquations(EquationExtractor.Extracted(raw, io.found), io.sectionMatches)
  {
    // what a rollback of the session restores
    var rawBefore, metadataBefore, equationsBefore := doc.rawText, doc.metadata, doc.equations;
    if io.pages.Err? {
      return Summary(Failed, io.pageCount, 0, 0, 0, 0, 0, 0, 0, 0, 0, [io.pages.error]);
    }
    var pages := io.pages.value;
    var c := CollectPages(pages);
    var raw := c.rawText;
    doc.rawText := Some(raw);
    var eqs := EquationExtractor.ExtractEquations(raw, io.found);
    var records := SaveEquations(eqs, io.sectionMatches);
    doc.equations := records;
    if io.flushError.Some? {
      doc.rawText, doc.equations := rawBefore, equationsBefore;
      return Summary(Failed, io.pageCount, |pages|, |eqs|, 0, |c.images|, 0, 0, c.ocrPages, c.lowConfidencePages,
                     c.lowConfidenceSegments, [io.flushError.value]);
    }
    var analysed := AnalyseEquations(|records|, io.outcomes);
    var concepts := Concepts(io.conceptReply, raw);
    var sections := IdentifySections(raw);
    doc.metadata := Some(Metadata(io.pageCount, |pages|, |eqs|, |c.images|, |raw|, concepts, sections, c.images,
                                  c.pageTexts, c.snapshots, c.ocrResults, c.lowConfidenceSegments));
    results := Summary(Processing, io.pageCount, |pages|, |eqs|, analysed, |c.images|, |concepts|, |sections|,
                       c.ocrPages, c.lowConfidencePages, c.lowConfidenceSegments, []);
    if io.commitError.Some? {
      doc.rawText, doc.metadata, doc.equations := rawBefore, metadataBefore, equationsBefore;
      return results.(status := Failed, errors := [io.commitError.value]);
    }
    results := results.(status := Completed);
  }
}
