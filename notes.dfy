/**
 * The note rewriter (backend/app/api/v1/notes.py): pages are grouped in chunks
 * of three, each chunk with any page text is rewritten by the language model
 * (an oracle here) or falls back to its own text, the parts are joined under a
 * header, `## ` lines split the result into sections, and the rewrite is
 * appended to the document's history, whose last entry is the latest.
 */
module Notes {
  import opened Wrappers
  import opened Text

  // ---------------------------------------------------------------------------
  // page chunking

  const PagesPerChunk := 3

  /** `(page_count + pages_per_chunk - 1) // pages_per_chunk`; Dafny's `/` by a positive divisor is floor division. */
  function TotalChunks(pageCount: int): int {
    (pageCount + PagesPerChunk - 1) / PagesPerChunk
  }

  /** The chunks the loop visits: `range(total_chunks)` is empty for a negative count. */
  function ChunkCount(pageCount: int): nat {
    if TotalChunks(pageCount) < 0 then 0 else TotalChunks(pageCount)
  }

  function ChunkStart(k: nat): int {
    k * PagesPerChunk + 1
  }

  function ChunkEnd(k: nat, pageCount: int): int {
    Min((k + 1) * PagesPerChunk, pageCount)
  }

  /** For a non-negative page count the number of chunks is the page count divided by three, rounded up. */
  lemma ChunkCountIsCeiling(pageCount: nat)
    ensures pageCount <= PagesPerChunk * ChunkCount(pageCount) < pageCount + PagesPerChunk
  {
  }

  /**
   * The chunks in order: each is a non-empty run of at most three pages, the
   * first starts at page 1, each starts right after the one before it ends, and
   * the last ends at the last page.
   */
  lemma ChunksAreConsecutive(pageCount: int, k: nat)
    requires k < ChunkCount(pageCount)
    ensures 1 <= ChunkStart(k) <= ChunkEnd(k, pageCount) <= pageCount
    ensures ChunkEnd(k, pageCount) - ChunkStart(k) < PagesPerChunk
    ensures k + 1 < ChunkCount(pageCount) ==> ChunkStart(k + 1) == ChunkEnd(k, pageCount) + 1
    ensures k + 1 == ChunkCount(pageCount) ==> ChunkEnd(k, pageCount) == pageCount
  {
  }

  /** Every page from 1 to the page count lies in exactly one chunk, the one numbered `(page - 1) / 3`. */
  lemma EachPageInOneChunk(pageCount: int, page: int)
    requires 1 <= page <= pageCount
    ensures var k := (page - 1) / PagesPerChunk;
      k < ChunkCount(pageCount) && ChunkStart(k) <= page <= ChunkEnd(k, pageCount)
    ensures forall j: nat :: j < ChunkCount(pageCount) && ChunkStart(j) <= page <= ChunkEnd(j, pageCount) ==>
      j == (page - 1) / PagesPerChunk
  {
  }

  // ---------------------------------------------------------------------------
  // page texts

  /**
   * `page_texts` as stored: the entries whose key is the decimal string `str(n)`
   * (what a JSON round trip leaves), indexed here by `n`, and the entries whose
   * key is the integer `n`. A string key that is not `str(n)` of any page is never read.
   */
  datatype PageTextTable = PageTextTable(byName: map<int, string>, byNumber: map<int, string>)

  /** `page_texts.get(str(n), page_texts.get(n, ""))` */
  function PageText(table: PageTextTable, n: int): (r: string)
    ensures n in table.byName ==> r == table.byName[n]
    ensures n !in table.byName && n in table.byNumber ==> r == table.byNumber[n]
    ensures n !in table.byName && n !in table.byNumber ==> r == ""
  {
    if n in table.byName then table.byName[n]
    else if n in table.byNumber then table.byNumber[n]
    else ""
  }

  /** The pages from `lo` to `hi` with a non-empty text, in page order, each with its text. */
  function ChunkEntries(table: PageTextTable, lo: int, hi: int): seq<(int, string)>
    decreases hi - lo
  {
    if hi < lo then []
    else ChunkEntries(table, lo, hi - 1) + (if PageText(table, hi) != "" then [(hi, PageText(table, hi))] else [])
  }

  /** The chunk's entry lines: one `--- PAGE n ---` block per entry. */
  function EntryLine(e: (int, string)): seq<string> {
    ["--- PAGE " + IntToString(e.0) + " ---\n" + e.1]
  }

  function ChunkContent(table: PageTextTable, lo: int, hi: int): seq<string> {
    FlatMap(ChunkEntries(table, lo, hi), EntryLine)
  }

  /** A chunk has entries exactly when one of its pages has a non-empty text; each entry is such a page. */
  lemma {:induction false} ChunkEntriesMeaning(table: PageTextTable, lo: int, hi: int)
    ensures ChunkEntries(table, lo, hi) == [] <==> forall p :: lo <= p <= hi ==> PageText(table, p) == ""
    ensures forall e :: e in ChunkEntries(table, lo, hi) ==> lo <= e.0 <= hi && e.1 == PageText(table, e.0) != ""
    decreases hi - lo
  {
    if hi >= lo {
      ChunkEntriesMeaning(table, lo, hi - 1);
    }
  }

  /** The entries come in strictly increasing page order. */
  lemma {:induction false} ChunkEntriesOrdered(table: PageTextTable, lo: int, hi: int)
    ensures forall a, b :: 0 <= a < b < |ChunkEntries(table, lo, hi)| ==>
      ChunkEntries(table, lo, hi)[a].0 < ChunkEntries(table, lo, hi)[b].0
    decreases hi - lo
  {
    if hi >= lo {
      ChunkEntriesOrdered(table, lo, hi - 1);
      ChunkEntriesMeaning(table, lo, hi - 1);
      var prev := ChunkEntries(table, lo, hi - 1);
      if PageText(table, hi) != "" {
        var r := ChunkEntries(table, lo, hi);
        assert r == prev + [(hi, PageText(table, hi))];
        forall a, b | 0 <= a < b < |r|
          ensures r[a].0 < r[b].0
        {
          assert r[a] == prev[a] && r[a] in prev;
          if b < |prev| {
            assert r[b] == prev[b];
          }
        }
      } else {
        assert ChunkEntries(table, lo, hi) == prev;
      }
    }
  }

  /** The inner page loop: the entry lines of the pages `lo` to `hi`. */
  method CollectChunk(table: PageTextTable, lo: int, hi: int) returns (content: seq<string>)
    ensures content == ChunkContent(table, lo, hi)
  {
    content := [];
    var p := lo;
    while p <= hi
      invariant lo <= p && (p <= hi + 1 || p == lo)
      invariant content == ChunkContent(table, lo, p - 1)
      decreases hi - p
    {
      var text := PageText(table, p);
      ghost var before := ChunkEntries(table, lo, p - 1);
      if text != "" {
        assert ChunkEntries(table, lo, p) == before + [(p, text)];
        FlatMapConcat(before, [(p, text)], EntryLine);
        assert FlatMap([(p, text)], EntryLine) == EntryLine((p, text)) by {
          assert [(p, text)][..0] == [];
        }
        content := content + ["--- PAGE " + IntToString(p) + " ---\n" + text];
      } else {
        assert ChunkEntries(table, lo, p) == before;
      }
      p := p + 1;
    }
    if hi < lo {
      assert ChunkEntries(table, lo, hi) == [];
    }
  }

  // ---------------------------------------------------------------------------
  // rewriting the chunks

  /** The model's reply for chunk `k`: None stands for no reply or an exception. */
  function ReplyAt(replies: seq<Option<string>>, k: nat): Option<string> {
    if k < |replies| then replies[k] else None
  }

  /** A usable reply is one with something besides whitespace. */
  function ChunkText(reply: Option<string>, content: seq<string>): (r: string)
    ensures reply.Some? && Strip(reply.value) != "" ==> r == reply.value
    ensures !(reply.Some? && Strip(reply.value) != "") ==> r == Join("\n", content)
  {
    if reply.Some? && Strip(reply.value) != "" then reply.value else Join("\n", content)
  }

  /** What chunk `k` contributes: nothing when none of its pages has text. */
  function ChunkPart(table: PageTextTable, pageCount: int, replies: seq<Option<string>>, k: nat): Option<string> {
    var lo, hi := ChunkStart(k), ChunkEnd(k, pageCount);
    if ChunkEntries(table, lo, hi) == [] then None else Some(ChunkText(ReplyAt(replies, k), ChunkContent(table, lo, hi)))
  }

  /** `all_formatted_parts` after the first `n` chunks. */
  function FormattedParts(table: PageTextTable, pageCount: int, replies: seq<Option<string>>, n: nat): seq<string> {
    if n == 0 then []
    else
      FormattedParts(table, pageCount, replies, n - 1) + Listed(ChunkPart(table, pageCount, replies, n - 1))
  }

  /** The value of an option as a list of zero or one element. */
  function Listed(o: Option<string>): seq<string> {
    if o.Some? then [o.value] else []
  }

  /** One pass of the chunk loop: collect the chunk's pages, then keep a usable reply or fall back to the pages. */
  method FormatChunk(table: PageTextTable, pageCount: int, replies: seq<Option<string>>, k: nat)
    returns (part: Option<string>)
    ensures part == ChunkPart(table, pageCount, replies, k)
  {
    var startPage := k * PagesPerChunk + 1;
    var endPage := Min((k + 1) * PagesPerChunk, pageCount);
    var content := CollectChunk(table, startPage, endPage);
    ContentEmptyIff(table, startPage, endPage);
    if content == [] {
      return None;
    }
    var reply := ReplyAt(replies, k);
    if reply.Some? && Strip(reply.value) != "" {
      part := Some(reply.value);
    } else {
      part := Some(Join("\n", content));
    }
  }

  /** The chunk loop of `rewrite_notes`. */
  method FormatChunks(table: PageTextTable, pageCount: int, replies: seq<Option<string>>) returns (parts: seq<string>)
    ensures parts == FormattedParts(table, pageCount, replies, ChunkCount(pageCount))
  {
    parts := [];
    for k := 0 to ChunkCount(pageCount)
      invariant parts == FormattedParts(table, pageCount, replies, k)
    {
      var part := FormatChunk(table, pageCount, replies, k);
      parts := parts + Listed(part);
    }
  }

  /** The chunk content is empty exactly when its entries are. */
  lemma ContentEmptyIff(table: PageTextTable, lo: int, hi: int)
    ensures ChunkContent(table, lo, hi) == [] <==> ChunkEntries(table, lo, hi) == []
  {
    var es := ChunkEntries(table, lo, hi);
    if es != [] {
      assert FlatMap(es, EntryLine) == FlatMap(es[..|es| - 1], EntryLine) + EntryLine(es[|es| - 1]);
    }
  }

  /** After `n` chunks there are no parts exactly when none of those chunks has a page with text. */
  lemma {:induction false} NoPartsIff(table: PageTextTable, pageCount: int, replies: seq<Option<string>>, n: nat)
    ensures FormattedParts(table, pageCount, replies, n) == [] <==>
      forall k: nat :: k < n ==> ChunkEntries(table, ChunkStart(k), ChunkEnd(k, pageCount)) == []
  {
    if n > 0 {
      NoPartsIff(table, pageCount, replies, n - 1);
    }
  }

  /** The rewrite produces no part exactly when no page from 1 to the page count has text. */
  lemma NoPartsIffNoText(table: PageTextTable, pageCount: int, replies: seq<Option<string>>)
    ensures FormattedParts(table, pageCount, replies, ChunkCount(pageCount)) == [] <==>
      forall p :: 1 <= p <= pageCount ==> PageText(table, p) == ""
  {
    NoPartsIff(table, pageCount, replies, ChunkCount(pageCount));
    var n := ChunkCount(pageCount);
    if forall k: nat :: k < n ==> ChunkEntries(table, ChunkStart(k), ChunkEnd(k, pageCount)) == [] {
      forall p | 1 <= p <= pageCount
        ensures PageText(table, p) == ""
      {
        EachPageInOneChunk(pageCount, p);
        var k := (p - 1) / PagesPerChunk;
        ChunkEntriesMeaning(table, ChunkStart(k), ChunkEnd(k, pageCount));
      }
    }
    if forall p :: 1 <= p <= pageCount ==> PageText(table, p) == "" {
      forall k: nat | k < n
        ensures ChunkEntries(table, ChunkStart(k), ChunkEnd(k, pageCount)) == []
      {
        ChunksAreConsecutive(pageCount, k);
        ChunkEntriesMeaning(table, ChunkStart(k), ChunkEnd(k, pageCount));
      }
    }
  }

  /** Every part is either a usable reply for its chunk or that chunk's own entry lines joined by newlines. */
  lemma {:induction false} PartsAreRepliesOrFallbacks(table: PageTextTable, pageCount: int, replies: seq<Option<string>>, n: nat)
    ensures |FormattedParts(table, pageCount, replies, n)| <= n
    ensures forall t :: t in FormattedParts(table, pageCount, replies, n) ==>
      exists k: nat :: k < n && ChunkPart(table, pageCount, replies, k) == Some(t)
  {
    if n > 0 {
      PartsAreRepliesOrFallbacks(table, pageCount, replies, n - 1);
      var prev := FormattedParts(table, pageCount, replies, n - 1);
      var o := ChunkPart(table, pageCount, replies, n - 1);
      assert FormattedParts(table, pageCount, replies, n) == prev + Listed(o);
    }
  }

  // ---------------------------------------------------------------------------
  // sections

  datatype NoteSection = NoteSection(title: string, content: seq<string>)

  predicate IsHeading(line: string) {
    StartsWith(line, "## ")
  }

  /** `line.replace('## ', '').strip()` */
  function HeadingTitle(line: string): string {
    Strip(RemoveAll(line, "## "))
  }

  /** The sections closed so far and the one being filled. */
  datatype ParseState = ParseState(done: seq<NoteSection>, current: Option<NoteSection>)

  function Closed(st: ParseState): seq<NoteSection> {
    st.done + (if st.current.Some? then [st.current.value] else [])
  }

  /** One line of the section loop. */
  function ParseStep(st: ParseState, line: string): ParseState {
    if IsHeading(line) then ParseState(Closed(st), Some(NoteSection(HeadingTitle(line), [])))
    else if st.current.Some? && Strip(line) != "" then
      ParseState(st.done, Some(st.current.value.(content := st.current.value.content + [line])))
    else st
  }

  function ParseLines(lines: seq<string>): ParseState {
    if lines == [] then ParseState([], None) else ParseStep(ParseLines(lines[..|lines| - 1]), lines[|lines| - 1])
  }

  /** The sections of a text: the loop's sections plus the one still open at the end. */
  function NoteSections(lines: seq<string>): seq<NoteSection> {
    Closed(ParseLines(lines))
  }

  /** The heading lines, in order. */
  function Headings(lines: seq<string>): seq<string> {
    if lines == [] then []
    else Headings(lines[..|lines| - 1]) + (if IsHeading(lines[|lines| - 1]) then [lines[|lines| - 1]] else [])
  }

  /** The section parsing of `rewrite_notes`. */
  method ParseSections(text: string) returns (sections: seq<NoteSection>)
    ensures sections == NoteSections(Split(text, '\n'))
  {
    var lines := Split(text, '\n');
    sections := [];
    var current: Option<NoteSection> := None;
    for i := 0 to |lines|
      invariant ParseState(sections, current) == ParseLines(lines[..i])
    {
      var line := lines[i];
      assert lines[..i + 1][..i] == lines[..i] && lines[..i + 1][i] == line;
      if StartsWith(line, "## ") {
        if current.Some? {
          sections := sections + [current.value];
        }
        current := Some(NoteSection(Strip(RemoveAll(line, "## ")), []));
      } else if current.Some? && Strip(line) != "" {
        current := Some(current.value.(content := current.value.content + [line]));
      }
    }
    assert lines[..|lines|] == lines;
    if current.Some? {
      sections := sections + [current.value];
    }
  }

  /**
   * One section per heading line, in order, titled by that line: lines before
   * the first heading open nothing, and the section still open is the last heading's.
   */
  lemma {:induction false} SectionPerHeading(lines: seq<string>)
    ensures |NoteSections(lines)| == |Headings(lines)|
    ensures forall i :: 0 <= i < |Headings(lines)| ==> NoteSections(lines)[i].title == HeadingTitle(Headings(lines)[i])
    ensures ParseLines(lines).current.None? <==> Headings(lines) == []
  {
    if lines != [] {
      var init, line := lines[..|lines| - 1], lines[|lines| - 1];
      SectionPerHeading(init);
      var st := ParseLines(init);
      var hs := Headings(init);
      if IsHeading(line) {
        var r := NoteSections(lines);
        assert Headings(lines) == hs + [line];
        assert r == Closed(st) + [NoteSection(HeadingTitle(line), [])];
        forall i | 0 <= i < |hs| + 1
          ensures r[i].title == HeadingTitle((hs + [line])[i])
        {
          if i < |hs| {
            assert r[i] == Closed(st)[i];
          }
        }
      } else {
        assert Headings(lines) == hs;
        if st.current.Some? && Strip(line) != "" {
          var r := NoteSections(lines);
          assert r == st.done + [st.current.value.(content := st.current.value.content + [line])];
          forall i | 0 <= i < |hs|
            ensures r[i].title == HeadingTitle(hs[i])
          {
            if i < |st.done| {
              assert r[i] == Closed(st)[i];
            } else {
              assert Closed(st)[i] == st.current.value;
            }
          }
        }
      }
    }
  }

  /** Every content line is a non-blank line that is not a heading. */
  lemma {:induction false} ContentLinesNonBlank(lines: seq<string>)
    ensures forall s, l :: s in NoteSections(lines) && l in s.content ==> Strip(l) != "" && !IsHeading(l) && l in lines
  {
    if lines != [] {
      var init, line := lines[..|lines| - 1], lines[|lines| - 1];
      ContentLinesNonBlank(init);
      var st := ParseLines(init);
      assert forall s :: s in st.done ==> s in Closed(st);
      assert st.current.Some? ==> st.current.value in Closed(st);
      assert forall l :: l in init ==> l in lines;
      if IsHeading(line) {
        assert NoteSections(lines) == Closed(st) + [NoteSection(HeadingTitle(line), [])];
      } else if st.current.Some? && Strip(line) != "" {
        assert NoteSections(lines) == st.done + [st.current.value.(content := st.current.value.content + [line])];
      }
    }
  }

  // ---------------------------------------------------------------------------
  // the endpoints

  /** One entry of `rewritten_notes`. */
  datatype RewrittenNote = RewrittenNote(title: string, content: string, pageCount: int, imageCount: nat)

  /** The document fields the endpoints read, and its history of rewrites. */
  class NotesDocument {
    const id: string
    const filename: string
    const storedPageCount: Option<int>  // metadata `page_count`, possibly missing
    const imageCount: nat               // number of metadata `images`
    const pageTexts: PageTextTable
    var rewrittenNotes: seq<RewrittenNote>

    constructor (id: string, filename: string, storedPageCount: Option<int>, imageCount: nat, pageTexts: PageTextTable)
      ensures this.id == id && this.filename == filename && this.storedPageCount == storedPageCount
      ensures this.imageCount == imageCount && this.pageTexts == pageTexts && rewrittenNotes == []
    {
      this.id := id;
      this.filename := filename;
      this.storedPageCount := storedPageCount;
      this.imageCount := imageCount;
      this.pageTexts := pageTexts;
      rewrittenNotes := [];
    }

    /** `metadata.get('page_count', 1)` */
    function PageCount(): int {
      storedPageCount.GetOr(1)
    }

    /** Appending to `rewritten_notes`. */
    method Record(note: RewrittenNote)
      modifies this
      ensures rewrittenNotes == old(rewrittenNotes) + [note]
    {
      rewrittenNotes := rewrittenNotes + [note];
    }

    /** `rewritten_notes[-1]`, or 404 when there is none. */
    function Latest(): (r: Result<RewrittenNote, HttpError>)
      reads this
      ensures r.Ok? <==> rewrittenNotes != []
      ensures r.Ok? ==> r.value == rewrittenNotes[|rewrittenNotes| - 1]
      ensures r.Err? ==> r.error.status == 404
    {
      if rewrittenNotes == [] then Err(HttpError(404, "No rewritten notes found"))
      else Ok(rewrittenNotes[|rewrittenNotes| - 1])
    }
  }

  const NotFound := HttpError(404, "Document not found")

  function Header(filename: string, pageCount: int, imageCount: nat): string {
    "# Formatted Notes\n\n**Original Document:** " + filename + "\n**Total Pages:** " + IntToString(pageCount)
    + "\n**Images:** " + IntToString(imageCount) + "\n**Generated by:** Lattice AI\n\n---\n\n"
  }

  const PartSeparator := "\n\n---\n\n"

  datatype RewriteResponse = RewriteResponse(title: string, formattedContent: string, sections: seq<NoteSection>,
                                             pageCount: int, imageCount: nat, downloadUrl: string)

  /** `rewrite_notes` for the looked-up document, with the model's reply per chunk as an oracle. */
  method RewriteNotes(doc: Option<NotesDocument>, replies: seq<Option<string>>)
    returns (r: Result<RewriteResponse, HttpError>)
    modifies if doc.Some? then {doc.value} else {}
    ensures doc.None? ==> r == Err(NotFound)
    ensures doc.Some? ==> var d := doc.value;
      var parts := FormattedParts(d.pageTexts, d.PageCount(), replies, ChunkCount(d.PageCount()));
      (parts == [] ==> r == Err(HttpError(500, "Failed to process any pages. Please try again."))
                       && d.rewrittenNotes == old(d.rewrittenNotes))
      && (parts != [] ==>
            var content := Header(d.filename, d.PageCount(), d.imageCount) + Join(PartSeparator, parts);
            var note := RewrittenNote("Formatted Notes - " + d.filename, content, d.PageCount(), d.imageCount);
            r == Ok(RewriteResponse(note.title, content, NoteSections(Split(content, '\n')), d.PageCount(),
                                    d.imageCount, "/api/v1/notes/" + d.id + "/download"))
            && d.rewrittenNotes == old(d.rewrittenNotes) + [note])
  {
    if doc.None? {
      return Err(NotFound);
    }
    var d := doc.value;
    var pageCount := d.PageCount();
    var parts := FormatChunks(d.pageTexts, pageCount, replies);
    if parts == [] {
      return Err(HttpError(500, "Failed to process any pages. Please try again."));
    }
    var content := Header(d.filename, pageCount, d.imageCount) + Join(PartSeparator, parts);
    var title := "Formatted Notes - " + d.filename;
    var sections := ParseSections(content);
    d.Record(RewrittenNote(title, content, pageCount, d.imageCount));
    r := Ok(RewriteResponse(title, content, sections, pageCount, d.imageCount, "/api/v1/notes/" + d.id + "/download"));
  }

  /** `get_latest_rewritten_notes` */
  function GetLatest(doc: Option<NotesDocument>): (r: Result<RewrittenNote, HttpError>)
    reads if doc.Some? then {doc.value} else {}
    ensures doc.None? ==> r == Err(NotFound)
    ensures doc.Some? ==> r == doc.value.Latest()
  {
    if doc.None? then Err(NotFound) else doc.value.Latest()
  }

  /** `download_formatted_notes`: the latest content and its file name, the title with spaces as underscores. */
  function DownloadNotes(doc: Option<NotesDocument>): (r: Result<(string, string), HttpError>)
    reads if doc.Some? then {doc.value} else {}
    ensures r.Ok? <==> doc.Some? && doc.value.rewrittenNotes != []
    ensures r.Ok? ==> var latest := doc.value.rewrittenNotes[|doc.value.rewrittenNotes| - 1];
      r.value.0 == latest.content && ' ' !in r.value.1 && EndsWith(r.value.1, ".md") &&
      r.value.1 == ReplaceChar(latest.title, ' ', "_") + ".md"
  {
    match GetLatest(doc)
    case Err(e) => Err(e)
    case Ok(note) =>
      var name := ReplaceChar(note.title, ' ', "_") + ".md";
      assert name[|name| - 3..] == ".md";
      Ok((note.content, name))
  }
}
