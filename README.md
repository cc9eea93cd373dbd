# Lattice backend core, modelled in Dafny

Lattice turns uploaded lecture notes (PDFs and page images) into structured
study material. This project models the core of its Python backend:

- **Document parser.** Validates uploads, counts pages, and extracts each page's text, images, tables and snapshot.
- **Document processor.** Chooses each page's text (its own or the OCR text) and assembles the raw text. Then it extracts equations and sections, falls back to a concept list, and follows the step sequence of a processing run with its single failure path.
- **Equation extractor.** Filters the regular-expression matches, lets the first match at a position win, and sorts the result. It also builds the context sentences, cleans LaTeX, and looks up the section an equation falls in.
- **Equation analyser.** Parses with one cleaned retry and makes the variable records with their tables. It also produces the analysis result, the basic explanation and the derivation steps.
- **Simulation engine.** Selects the slider variables and their ranges, builds the plot configuration, and picks the kind of initial data.
- **Language-model client.** Chooses the provider, defaults the request parameters, falls back to a template explanation, and keeps one process-wide instance.
- **Page beautifier.** Renders a PDF page to an image, runs two transcription stages with their error markers, and deletes the temporary image.
- **Beautification job.** Tracks progress, inserts or updates (upserts) the page rows, and records the job's state at every commit.
- **Event stream.** Per-job FIFO queues, the server-sent-events generator with keep-alives, termination and cleanup.
- **PDF generator, text side.** Strips the delimiters around equations, scrubs text down to Latin-1, escapes HTML, and parses markdown and LaTeX blocks line by line.
- **Document endpoints.** Upload, beautify, process, page edit and PDF download.
- **Note rewriter.** Groups pages in chunks of three, falls back to the original text per chunk, splits the result into sections, and keeps a history of rewrites.

Every collaborator the code cannot see is a parameter:

- the SDK calls of the language model, pdfplumber and the OCR engine;
- where PyMuPDF raises while rendering a page (a `RenderFault`);
- the database and the file system;
- the clock and the process id;
- the matches of the regular expressions.

Each parameter stands for what that collaborator returned, or for the message of what it raised.

- **Pure logic** is modelled as functions, with lemmas about them.
- **Loops** are methods with invariants, proved against those functions.
- **Records the source updates in place** are classes with `modifies` frames: jobs, documents, the stream manager, the file store, the client registry and the notes history.

One Dafny module corresponds to each source file. Alongside them:

- `Wrappers` holds Option and Result;
- `Text` holds Python's string operations (strip, split, join, lower, suffix, slicing);
- `Records` holds the persisted job and document rows.

## Model

| member | source | states |
|---|---|---|
| EventStream.Next | backend/app/services/event_stream.py:52-67 | one read of the queue: an exception yields its error report, stops and leaves the queue alone; otherwise a queued event (the old head, or the delivered one on an empty queue) is yielded and removed, an empty queue at the timeout yields a keep-alive and leaves it empty; the stream stops exactly on an exception or a "complete"/"error" event |
| EventStream.StreamIsFifo | backend/app/services/event_stream.py:49-63 | the events a stream yields are a prefix of the queued events followed by the events published while it runs, in that order |
| EventStream.StreamLosesNothing | backend/app/services/event_stream.py:52-71 | without exceptions or terminal events nothing is lost: the yielded events followed by the queue left behind are exactly the queued events followed by the published ones |
| EventStream.PollsDrainQueue | backend/app/services/event_stream.py:52-67 | with no publisher and no terminal event, k reads yield the first k queued events in order (all of them when there are fewer) |
| EventStream.StreamEndsAtTerminal | backend/app/services/event_stream.py:61-71 | the stream's output is terminated, if at all, by its last item: nothing follows a terminal event or the error report |
| EventStream.StreamRunsUntilClosed | backend/app/services/event_stream.py:52-67 | without terminal events or exceptions, the stream yields one item per read and never reports an error |
| EventStream.TimeoutKeepsStreamOpen | backend/app/services/event_stream.py:65-67 | a timeout on an empty queue yields the keep-alive comment and the stream goes on |
| EventStream.EventStreamManager.CreateStream | backend/app/services/event_stream.py:19-23 | a queue is created only for a job without one; an existing queue is kept |
| EventStream.EventStreamManager.PublishEvent | backend/app/services/event_stream.py:25-37 | the event is appended to the job's queue, which is created if missing; the other queues are unchanged |
| EventStream.EventStreamManager.ReadOnce | backend/app/services/event_stream.py:52-67 | one read changes only this job's queue, and does so as `Next` says |
| EventStream.EventStreamManager.StreamEvents | backend/app/services/event_stream.py:39-76 | the output is the stream of the job's queue (created when missing); afterwards the job's queue is removed and the other queues are untouched |
| BackgroundTasks.ProgressBounds | backend/app/services/background_tasks.py:62-63 | the progress reported for page i of n lies between 10 and 90, and is 90 on the last page |
| BackgroundTasks.ProgressMonotone | backend/app/services/background_tasks.py:62-63 | later pages never report less progress |
| BackgroundTasks.PageCount | backend/app/services/background_tasks.py:53-58 | a non-PDF has one page; a PDF has the parser's count, or 1 when counting raises |
| BackgroundTasks.FindPage | backend/app/services/background_tasks.py:77 | the index of the first row with the page number, or the row count when there is none |
| BackgroundTasks.UpsertCounts | backend/app/services/background_tasks.py:77-89 | an upsert adds a row only for a page number not yet present, and never duplicates a number |
| BackgroundTasks.UpsertStores | backend/app/services/background_tasks.py:77-89 | after an upsert, the first row with the page number holds the new beautified text |
| BackgroundTasks.UpsertKeepsOther | backend/app/services/background_tasks.py:77-89 | the first row of another page number stays at the same index with the same content |
| BackgroundTasks.UpsertTouchesOneRow | backend/app/services/background_tasks.py:77-89 | an upsert changes exactly one row: the first row of the number gets the text, or a new row (number, file path, text) is appended; every other row, in particular every row of another number, is unchanged and in place |
| BackgroundTasks.ProcessedCounts | backend/app/services/background_tasks.py:62-89 | after pages 1..k a page number in 1..k that had no row has exactly one; every other number keeps its count of rows |
| BackgroundTasks.ProcessedStores | backend/app/services/background_tasks.py:62-89 | after pages 1..k the first row of each number in 1..k holds that page's transcription |
| BackgroundTasks.ProcessedUpsertsEachPageOnce | backend/app/services/background_tasks.py:62-89 | both of the above for one number: a row is added only for a number that had none, and the first row of every processed number carries its transcription |
| BackgroundTasks.ReportPage | backend/app/services/background_tasks.py:64-68 | the job's progress and "Processing page i of n..." message are committed while it stays running, and progress never decreases |
| BackgroundTasks.TranscribeOne | backend/app/services/background_tasks.py:62-89 | one iteration: progress is reported, then the page is upserted with its transcript, unless the fault hits this page |
| BackgroundTasks.TranscribePages | backend/app/services/background_tasks.py:62-89 | the page loop upserts pages 1..k, where k is the number of pages done before the fault; it fails exactly when the fault hits a page in range, carrying the fault's message |
| BackgroundTasks.RunBeautifyJob | backend/app/services/background_tasks.py:10-115 | the job starts running at progress 5; a missing document ends in "Document not found" with progress 0; success marks the document "beautified" and the job completed at 100; a failure marks both "error" with the exception message and progress 0; running progress never decreases |
| VisualBeautifier.RenderedPath | backend/app/services/visual_beautifier.py:189-192 | the rendered image's path ends in ".png" |
| VisualBeautifier.RenderedPathIsNotPdf | backend/app/services/visual_beautifier.py:189-192 | the rendered image is never the PDF itself, so cleanup can never delete the upload |
| VisualBeautifier.RenderSpec | backend/app/services/visual_beautifier.py:163-204 | a missing file gives the "not found" error, a fault while opening gives its message before the page is checked, an out-of-range page gives None, a fault while drawing or saving gives its message, and only a clean render of an in-range page gives the PNG path |
| VisualBeautifier.FromStages | backend/app/services/visual_beautifier.py:103-149 | case by case: an exception in either stage gives "[Error during beautification: …]", an empty stage-1 reply the empty-response marker, a stage-1 "Error:" reply the "[Stage 1 Error: …]" marker, an empty or "Error:" stage-2 reply the stripped raw transcription, otherwise the stripped polished text; never empty |
| VisualBeautifier.CleanupFailureKeepsRaw | backend/app/services/visual_beautifier.py:139-146 | when stage 2 is empty or an error, the raw transcription is returned stripped |
| VisualBeautifier.OutcomeIsMarkerOrText | backend/app/services/visual_beautifier.py:83-153 | every result is either an "[Error…]"/"[Stage 1 Error…]" marker, or, when both stages answered, the stripped stage-2 text if it is usable and the stripped stage-1 text otherwise, non-empty and without whitespace at either end |
| VisualBeautifier.ImageStep | backend/app/services/visual_beautifier.py:84-101 | a PDF yields an image exactly when it exists, renders without a fault and the page is in range, and a render fault gives the "Render Exception for page N" marker; a temporary image only for a PDF and never the input file; an image file is used in place; any other suffix is an error marker |
| VisualBeautifier.TempImage | backend/app/services/visual_beautifier.py:87-92 | only a PDF page creates a temporary file, and it is never the input |
| VisualBeautifier.RenderPdfPage | backend/app/services/visual_beautifier.py:163-204 | as `RenderSpec` says, adding only the rendered file to the store |
| VisualBeautifier.AcquireImage | backend/app/services/visual_beautifier.py:84-101 | the image-acquisition step: its target and temporary flag, or the early error marker; only the rendered file is added to the store |
| VisualBeautifier.RunStages | backend/app/services/visual_beautifier.py:103-149 | the two model stages give `FromStages` of their replies, whose case-by-case contract is stated above |
| VisualBeautifier.BeautifyPage | backend/app/services/visual_beautifier.py:73-161 | the page's text is `Transcribe`, and the finally block leaves the file store as it was minus the temporary image |
| PdfGenerator.StripDelimiters | backend/app/services/pdf_generator.py:57-61 | the `$$…$$` pair is removed, else the `$…$` pair; never longer than the input |
| PdfGenerator.EquationBody | backend/app/services/pdf_generator.py:55-64 | the body to render is non-empty and no longer than the stripped input; it is None exactly when the delimiters leave nothing |
| PdfGenerator.RenderString | backend/app/services/pdf_generator.py:74-81 | the string handed to mathtext is wrapped in `$` |
| PdfGenerator.EmptyDisplayMath | backend/app/services/pdf_generator.py:58-64 | an input that strips to `$$` has nothing to render |
| PdfGenerator.DisplayDelimitersRoundTrip | backend/app/services/pdf_generator.py:57-64 | wrapping a trimmed body in `$$` and preparing it for rendering gives the body back |
| PdfGenerator.InlineDelimitersRoundTrip | backend/app/services/pdf_generator.py:57-64 | the same for `$` delimiters, unless the body itself looks like `$…$` |
| PdfGenerator.ReplaceInTurn | backend/app/services/pdf_generator.py:105-106 | applying each replacement of a sequential table in turn translates each character independently |
| PdfGenerator.ScrubText | backend/app/services/pdf_generator.py:95-116 | the scrubbed text is the punctuation translation with non-Latin-1 characters dropped, and is all Latin-1 |
| PdfGenerator.KeepLatin1 | backend/app/services/pdf_generator.py:110-114 | the filter keeps only Latin-1 characters, and leaves all-Latin-1 text unchanged |
| PdfGenerator.ScrubConcat | backend/app/services/pdf_generator.py:100-116 | scrubbing acts character by character |
| PdfGenerator.ScrubPunctuation | backend/app/services/pdf_generator.py:100-104 | each listed mark becomes its ASCII replacement |
| PdfGenerator.ScrubOther | backend/app/services/pdf_generator.py:108-114 | any other character is kept when it is Latin-1 and dropped otherwise |
| PdfGenerator.HtmlEscape | backend/app/services/pdf_generator.py:222-232 | the escape loop is the per-character entity translation |
| PdfGenerator.EscapedHasNoMarkup | backend/app/services/pdf_generator.py:222-232 | escaped text contains no raw `<`, `>`, `"` or `'` |
| PdfGenerator.UnescapeEscaped | backend/app/services/pdf_generator.py:222-232 | decoding the five entities gives back exactly the text that was escaped (`&` goes first, so nothing is escaped twice) |
| PdfGenerator.ClassifyLine | backend/app/services/pdf_generator.py:202-218 | an ordinary line's element follows `Classify`: title, heading2, heading3, bullet, numbered, blockquote or body by prefix in the source's order, with the content scrubbed; the lemmas below state each kind |
| PdfGenerator.ParseLine | backend/app/services/pdf_generator.py:127-218 | one pass of the line loop: the new flags and buffer, and the elements appended |
| PdfGenerator.ParseMarkdown | backend/app/services/pdf_generator.py:118-220 | the parser's output is the run over all lines, with at most one element per line |
| PdfGenerator.AtMostOnePerLine | backend/app/services/pdf_generator.py:127-218 | no line produces more than one element |
| PdfGenerator.MathBlock | backend/app/services/pdf_generator.py:131-156 | an opening `$$` line, body lines and a closing `$$` line give one equation: the stripped body lines joined by spaces, inside `$$` |
| PdfGenerator.UnclosedMathEmitsNothing | backend/app/services/pdf_generator.py:147-156 | an unclosed `$$` block swallows the rest of the input: no element is produced |
| PdfGenerator.StepInsideMath | backend/app/services/pdf_generator.py:147-156 | inside a math block, a line without `$$` at its end emits nothing and keeps the block open |
| PdfGenerator.BlankLineIsSpacer | backend/app/services/pdf_generator.py:158-160 | a blank line gives the pair ("spacer", "0.1"), whose style is "0.1" |
| PdfGenerator.FenceToggles | backend/app/services/pdf_generator.py:162-164 | a fence line toggles code mode and emits nothing |
| PdfGenerator.CodeLine | backend/app/services/pdf_generator.py:166-168 | in code mode a non-blank line becomes a scrubbed code element |
| PdfGenerator.HeadingRoundTrip | backend/app/services/pdf_generator.py:203-208 | a heading written at level 1 to 3 classifies back to that level and its text |
| PdfGenerator.BulletLine | backend/app/services/pdf_generator.py:209-210 | a line "- t" or "* t" is a bullet holding the stripped, scrubbed t |
| PdfGenerator.NumberedLine | backend/app/services/pdf_generator.py:211-214 | digits, a dot and white space make a numbered item holding the stripped, scrubbed text after the first dot |
| PdfGenerator.BlockquoteLine | backend/app/services/pdf_generator.py:215-216 | a line "> t" is a blockquote holding the stripped, scrubbed t |
| PdfGenerator.BodyLine | backend/app/services/pdf_generator.py:217-218 | a line starting with none of `#`, `-`, `*`, `>` or a digit is body text, kept whole apart from scrubbing |
| EquationExtractor.LooksLikeEquation | backend/app/services/equation_extractor.py:100-124 | without an ASCII letter or digit the text is not an equation; otherwise it is one exactly when one of the indicators occurs in it |
| EquationExtractor.Window | backend/app/services/equation_extractor.py:139-140 | the context window is 200 characters on each side, clipped to the text |
| EquationExtractor.LastPieceMeaning | backend/app/services/equation_extractor.py:150-152 | the last piece of the sentence split contains no separator, and is non-empty unless the text ends in whitespace |
| EquationExtractor.TrimRangeIsStrip | backend/app/services/equation_extractor.py:142-143 | the trimmed bounds delimit exactly the stripped slice |
| EquationExtractor.RangesAreStrippedSlices | backend/app/services/equation_extractor.py:139-143 | the ranges before and after the equation are the stripped Python slices of the window |
| EquationExtractor.ContextEmptyWhenBlank | backend/app/services/equation_extractor.py:146-160 | blank text on both sides gives an empty context |
| EquationExtractor.ContextStartsWithLastSentence | backend/app/services/equation_extractor.py:148-160 | text before the equation contributes its last sentence, non-empty and without a separator, at the front of the context |
| EquationExtractor.SortByPosition | backend/app/services/equation_extractor.py:95 | the sort gives a permutation ordered by position |
| EquationExtractor.ExtractEquations | backend/app/services/equation_extractor.py:52-98 | the nested pattern/match loop computes the scan of all matches, pattern after pattern, then sorts it |
| EquationExtractor.ExtractedSorted | backend/app/services/equation_extractor.py:63-95 | the extracted equations come in strictly increasing order of position, so no two share a position |
| EquationExtractor.ExtractedFirstWins | backend/app/services/equation_extractor.py:65-92 | every equation comes from the first match at its position that passes the filters |
| EquationExtractor.ExtractedFiltered | backend/app/services/equation_extractor.py:74-80 | every extracted LaTeX has at least two characters and looks like an equation |
| EquationExtractor.ExtractedComplete | backend/app/services/equation_extractor.py:65-92 | every position where some match passes the filters has an extracted equation |
| EquationExtractor.IdentifySection | backend/app/services/equation_extractor.py:162-192 | the title is the stripped last match of the first section pattern that matches before the position |
| EquationExtractor.NoSectionIsEmpty | backend/app/services/equation_extractor.py:185-192 | when no pattern matches, the section is "" |
| EquationExtractor.FirstMatchingPatternDecides | backend/app/services/equation_extractor.py:185-190 | the first pattern with a match decides, by its match closest to the position |
| EquationExtractor.CollapseSingleSpaced | backend/app/services/equation_extractor.py:205 | after `' '.join(s.split())` the only whitespace is single spaces between words |
| EquationExtractor.DropComment | backend/app/services/equation_extractor.py:208 | the comment cut keeps a prefix that contains no `%` |
| EquationExtractor.PaddedOperatorHasSpaces | backend/app/services/equation_extractor.py:211-213 | after padding, every occurrence of the operator has a space on each side |
| EquationExtractor.CleanLatex | backend/app/services/equation_extractor.py:194-215 | no `%` comment survives, every `=`, `+` and `-` has a space on each side the result has, and the result neither starts nor ends with whitespace |
| EquationExtractor.PadKeepsSpaced | backend/app/services/equation_extractor.py:211-213 | padding one operator keeps every other operator spaced on both sides |
| EquationExtractor.PadKeepsOut | backend/app/services/equation_extractor.py:211-213 | padding adds only spaces and the operator, so a character absent before stays absent |
| DocumentProcessor.LineSection | backend/app/services/document_processor.py:305-323 | the section a line opens carries that line's index |
| DocumentProcessor.HeadingSection | backend/app/services/document_processor.py:308-315 | a `#` line is a section whose level is its number of leading `#`, at least 1, and whose title is the rest of the line stripped |
| DocumentProcessor.NumberedSection | backend/app/services/document_processor.py:318-323 | a line starting with a digit and with a `.` among its first ten characters is a section whose level is its count of `.` |
| DocumentProcessor.PlainLine | backend/app/services/document_processor.py:304-323 | any other line opens no section |
| DocumentProcessor.IdentifySections | backend/app/services/document_processor.py:297-325 | the loop collects the sections of all lines, in line order |
| DocumentProcessor.SectionsInLineOrder | backend/app/services/document_processor.py:304-323 | sections come in strictly increasing line order |
| DocumentProcessor.SectionsBelow | backend/app/services/document_processor.py:304-323 | every section found is the one its line opens |
| DocumentProcessor.SectionsComplete | backend/app/services/document_processor.py:304-323 | every line that opens a section has its section in the result |
| DocumentProcessor.ExtractConceptsFallback | backend/app/services/document_processor.py:278-295 | the fallback is the first five of the common terms mentioned, case-insensitively, in their order |
| DocumentProcessor.MentionedMeaning | backend/app/services/document_processor.py:291-293 | the filter keeps exactly the mentioned terms, none more often than listed |
| DocumentProcessor.FallbackConcepts | backend/app/services/document_processor.py:278-295 | at most five concepts, each a mentioned common term; all of them when there are at most five |
| DocumentProcessor.Concepts | backend/app/services/document_processor.py:263-276 | a JSON list is returned as is, other JSON gives [], an unusable reply gives the fallback |
| DocumentProcessor.ChosenText | backend/app/services/document_processor.py:104-108 | the kept text is the page's text or the OCR text, never shorter than the page text, and empty only when both are |
| DocumentProcessor.OcrReplacesIff | backend/app/services/document_processor.py:105-108 | the OCR text wins exactly when it is non-empty and the page text is empty or shorter |
| DocumentProcessor.CollectPages | backend/app/services/document_processor.py:85-129 | the page loop gives the raw text, page texts, images, snapshots, OCR results and OCR counters as their reference definitions |
| DocumentProcessor.PageInRawText | backend/app/services/document_processor.py:110-118 | each page's marker and chosen text sit in the raw text right after the pages before it |
| DocumentProcessor.RawTextConcat | backend/app/services/document_processor.py:110-118 | the raw text of two runs of pages is the concatenation of theirs |
| DocumentProcessor.PageTextsKeys | backend/app/services/document_processor.py:112 | the keys of `page_texts` are exactly the page numbers |
| DocumentProcessor.PageTextsLookup | backend/app/services/document_processor.py:112 | with distinct page numbers, each page's number maps to its chosen text |
| DocumentProcessor.AnalyseEquations | backend/app/services/document_processor.py:155-194 | the analysis loop counts the successful analyses among the first 20 equations; never more than 20 or than the equation count |
| DocumentProcessor.SavedEquationsMeaning | backend/app/services/document_processor.py:139-151 | each saved row carries its equation's fields unchanged, plus the section of its position |
| DocumentProcessor.SaveEquations | backend/app/services/document_processor.py:138-151 | the save loop builds exactly the saved rows, one per equation, in order |
| DocumentProcessor.ProcessDocument | backend/app/services/document_processor.py:38-235 | the run fails exactly when extraction, the flush or the commit raises, with that exception's message as its one error entry; a failure rolls the document back; success stores the raw text, the equation rows and the whole metadata record (page count, pages processed, equation and image counts, character count, concepts, sections, images, page texts, snapshots, OCR readings and low-confidence segments), with the counters as defined |
| Notes.ChunkCountIsCeiling | backend/app/api/v1/notes.py:81-82 | the chunk count is the page count divided by three, rounded up |
| Notes.ChunksAreConsecutive | backend/app/api/v1/notes.py:84-86 | chunks are non-empty runs of at most three pages, consecutive from page 1 to the last page |
| Notes.EachPageInOneChunk | backend/app/api/v1/notes.py:84-94 | each page lies in exactly one chunk |
| Notes.PageText | backend/app/api/v1/notes.py:95 | the string key wins over the integer key, and "" when neither is present |
| Notes.ChunkEntriesMeaning | backend/app/api/v1/notes.py:94-97 | a chunk has entries exactly when one of its pages has non-empty text; each entry is such a page |
| Notes.ChunkEntriesOrdered | backend/app/api/v1/notes.py:94-97 | entries are in strictly increasing page order |
| Notes.CollectChunk | backend/app/api/v1/notes.py:91-102 | the inner page loop produces the chunk's entry lines |
| Notes.ChunkText | backend/app/api/v1/notes.py:133-150 | a non-blank reply is kept; otherwise the chunk's own lines, joined by newlines |
| Notes.FormatChunk | backend/app/api/v1/notes.py:84-150 | one chunk pass: nothing for a chunk without text, else the reply or the fallback |
| Notes.FormatChunks | backend/app/api/v1/notes.py:84-150 | the chunk loop computes the formatted parts of every chunk |
| Notes.NoPartsIffNoText | backend/app/api/v1/notes.py:104-156 | there is no part, and hence the 500 error, exactly when no page has text |
| Notes.PartsAreRepliesOrFallbacks | backend/app/api/v1/notes.py:140-150 | each part is a usable reply or a chunk's own lines joined by newlines |
| Notes.ParseSections | backend/app/api/v1/notes.py:177-194 | the section loop computes the note's sections |
| Notes.SectionPerHeading | backend/app/api/v1/notes.py:182-194 | one section per `## ` line, in order, each titled by its line |
| Notes.ContentLinesNonBlank | backend/app/api/v1/notes.py:190-191 | section content lines are non-blank non-heading lines of the text |
| Notes.NotesDocument.Record | backend/app/api/v1/notes.py:197-206 | the rewrite is appended to the history |
| Notes.NotesDocument.Latest | backend/app/api/v1/notes.py:238-246 | the last rewrite, or 404 when there is none |
| Notes.RewriteNotes | backend/app/api/v1/notes.py:37-220 | 404 without a document; 500 when no chunk has text; otherwise the header followed by the parts, separated by `---`, with its sections, recorded in the history |
| Notes.GetLatest | backend/app/api/v1/notes.py:224-246 | 404 without a document, otherwise the latest rewrite or 404 |
| Notes.DownloadNotes | backend/app/api/v1/notes.py:250-284 | the latest rewrite's content, under the name title-with-spaces-as-underscores plus ".md" (so without spaces), and 404 exactly when there is no document or no rewrite |
| Documents.UploadName | backend/app/api/v1/documents.py:31 | `file.filename or "file"` is never empty |
| Documents.SafeName | backend/app/api/v1/documents.py:41 | each character is kept when it is alphanumeric or one of `._-`, and replaced by `_` otherwise; the length is unchanged |
| Documents.SafeNameIsSafe | backend/app/api/v1/documents.py:41 | a safe name has no path separator, and making it safe twice changes nothing |
| Documents.SafeNameKeepsSafeNames | backend/app/api/v1/documents.py:41 | a name that is already safe is unchanged |
| Documents.UploadDocument | backend/app/api/v1/documents.py:26-75 | 400 for a disallowed suffix or an empty file, 500 when saving raises, otherwise a fresh "uploaded" document at the timestamped safe path |
| Documents.BeautifyDocument | backend/app/api/v1/documents.py:91-167 | 404 without a document or its file, 500 when a commit raises, otherwise the document is "processing" with a fresh queued job for it; the document's id, name, path and pages are unchanged |
| Documents.Truncated | backend/app/api/v1/documents.py:240 | the OCR echo is cut to 500 characters plus "..." only when longer |
| Documents.LatexJoinRejectsEquations | backend/app/api/v1/documents.py:213-216 | as written, the join fails exactly when at least one equation was extracted |
| Documents.LatexContent | backend/app/api/v1/documents.py:216 | the corrected join is None exactly when there are no equations |
| Documents.LatexContentSplits | backend/app/api/v1/documents.py:216 | the corrected join splits back into the equations' LaTeX |
| Documents.ProcessUpload | backend/app/api/v1/documents.py:191-247 | with the corrected LaTeX join (see Findings): 404 without a document or its file, 500 when the commit raises; otherwise page 1 is created or the first page updated with the OCR text and the joined LaTeX of the equations the extractor finds in it, and the document is "processed" |
| Documents.UpdatePage | backend/app/api/v1/documents.py:251-273 | 404 without a page; otherwise the payload's editable keys are copied |
| Documents.EditedUpToAll | backend/app/api/v1/documents.py:264-267 | applying the three whitelisted fields in turn gives the edited page |
| Documents.EditIgnoresOtherKeys | backend/app/api/v1/documents.py:264-267 | keys outside the whitelist change nothing; the page number and image stay |
| Documents.BeautifiedTextsMeaning | backend/app/api/v1/documents.py:295-308 | the rendered texts are exactly the non-blank beautified texts, and there are none only when no page has one |
| Documents.DownloadPdf | backend/app/api/v1/documents.py:277-329 | 404 without a document; 400 without pages or without beautified text; 500 when rendering fails; otherwise the texts, title and file name |
| LlmClient.GeminiPrompt | backend/app/services/llm_client.py:104-106 | the system prompt precedes the prompt when it is non-empty; otherwise the prompt is sent alone |
| LlmClient.OpenAiMessages | backend/app/services/llm_client.py:136-141 | an optional system message, then the user message |
| LlmClient.Client.constructor | backend/app/services/llm_client.py:16-54 | the provider is lowercased; a client is made only for a known provider whose key is set and whose SDK initialises |
| LlmClient.Client.EffectiveParams | backend/app/services/llm_client.py:83-84 | each argument is used when given, and the configured default only when it is None |
| LlmClient.Client.Complete | backend/app/services/llm_client.py:60-150 | None without a client or when the call raises; Gemini's missing text becomes "" and OpenAI's missing content None; otherwise the reply |
| LlmClient.Client.GenerateEquationExplanation | backend/app/services/llm_client.py:152-197 | the model's non-empty reply, otherwise the template fallback |
| LlmClient.FallbackMentionsEverything | backend/app/services/llm_client.py:199-210 | the fallback names every variable description, and the equation when there are none |
| LlmClient.FallbackOpening | backend/app/services/llm_client.py:199-210 | every fallback opens with "This equation" |
| LlmClient.Registry.Get | backend/app/services/llm_client.py:213-221 | the first call makes the client, and later calls return the same one |
| LlmClient.GetTwice | backend/app/services/llm_client.py:213-221 | two calls give the very same client |
| EquationAnalyzer.ListedConstantsMissed | backend/app/services/equation_analyzer.py:106-112 | as written, the listed "R" and the mis-encoded pi are never recognised |
| EquationAnalyzer.ListedGIsRedundant | backend/app/services/equation_analyzer.py:106-112 | as written, the listed "G" is recognised only because its lowercase "g" is listed too |
| EquationAnalyzer.ConstantsRecognised | backend/app/services/equation_analyzer.py:106-112 | the corrected test recognises every listed name, extends the written one, and still excludes "r" |
| EquationAnalyzer.Describe | backend/app/services/equation_analyzer.py:114-140 | the table's description, or the symbol itself |
| EquationAnalyzer.Unit | backend/app/services/equation_analyzer.py:142-162 | the table's unit, or None exactly when the symbol has none |
| EquationAnalyzer.UnitsAreDescribed | backend/app/services/equation_analyzer.py:114-162 | every symbol with a unit also has its own description |
| EquationAnalyzer.ExtractVariables | backend/app/services/equation_analyzer.py:75-104 | with the corrected constant test (see Findings): one record per free symbol in order, of kind constant exactly when the symbol is a likely constant, with its description and unit |
| EquationAnalyzer.ParseToSympy | backend/app/services/equation_analyzer.py:43-73 | the direct parse, otherwise the parse of the cleaned text; None only when both fail |
| EquationAnalyzer.BasicExplanationMentions | backend/app/services/equation_analyzer.py:222-256 | the basic explanation names every variable's description |
| EquationAnalyzer.AnalyzeEquation | backend/app/services/equation_analyzer.py:164-220 | with the corrected constant test (see Findings): the failure reply exactly when parsing fails; otherwise the parsed text and the record of each free symbol in order, and the model's explanation or the basic one without a client or on an exception |
| EquationAnalyzer.GenerateSteps | backend/app/services/equation_analyzer.py:277-313 | step 1 is always the starting equation; step 2 appears exactly when simplification changes the expression; steps are numbered from 1 |
| SimulationEngine.NonConstants | backend/app/services/simulation_engine.py:103-105 | a variable is kept exactly when it is not a constant |
| SimulationEngine.SelectKeyVariables | backend/app/services/simulation_engine.py:87-112 | at most three non-constants, the first ones in order; fewer only when fewer exist |
| SimulationEngine.SelectWithoutConstants | backend/app/services/simulation_engine.py:87-112 | without constants, the first three variables are selected |
| SimulationEngine.RangeMin | backend/app/services/simulation_engine.py:135-138 | 0 exactly for the listed non-negative names in any case, and -10 otherwise |
| SimulationEngine.MaxEstimate | backend/app/services/simulation_engine.py:159-187 | the table's entry for the lowercased name when it has one, or 10 |
| SimulationEngine.MaxAboveMin | backend/app/services/simulation_engine.py:140-145 | every estimate lies above the minimum, so the widening never fires |
| SimulationEngine.ComputeRanges | backend/app/services/simulation_engine.py:114-157 | one range per variable name, from `RangeMin` to `MaxEstimate` |
| SimulationEngine.PlotTitle | backend/app/services/simulation_engine.py:219-221 | the default title without LaTeX; otherwise the LaTeX in dollars, cut to 50 characters plus "..." when longer |
| SimulationEngine.CreatePlotConfig | backend/app/services/simulation_engine.py:189-228 | line for one variable, heatmap for two, 3-D otherwise; the axis labels come from the first two variables |
| SimulationEngine.InitialDataFor | backend/app/services/simulation_engine.py:230-253 | 1-D over the only variable, 2-D over the first two otherwise |
| SimulationEngine.CreateSimulation | backend/app/services/simulation_engine.py:42-85 | "No manipulable variables found" exactly when every variable is a constant; otherwise the selected variables, each with the range from `RangeMin` to `MaxEstimate` of its name, the plot and the initial data |
| DocumentParser.ValidateFile | backend/app/services/document_parser.py:39-64 | an oversize file is refused before its extension is checked; otherwise the file is valid exactly when its lowercased suffix is allowed |
| DocumentParser.GetPageCount | backend/app/services/document_parser.py:66-77 | 1 for a non-PDF, the page count for a PDF, 0 when it cannot be opened |
| DocumentParser.ImagesOf | backend/app/services/document_parser.py:141-157 | one record per image, in order, tagged with its page and index |
| DocumentParser.ExtractPdfPage | backend/app/services/document_parser.py:125-168 | the page loop body computes the page's content |
| DocumentParser.ExtractAllPdfPages | backend/app/services/document_parser.py:105-176 | an error when the PDF cannot be opened; otherwise one content per page, numbered from 1 |
| DocumentParser.FromImage | backend/app/services/document_parser.py:178-196 | one page numbered 1, whose snapshot is the copy when one was made and the original file otherwise |
| DocumentParser.ExtractAllPages | backend/app/services/document_parser.py:79-103 | dispatch by lowercased suffix; any other suffix is an error naming the suffix |
| DocumentParser.PagesWithText | backend/app/services/document_parser.py:297-302 | exactly the numbers of the pages with text, increasing |
| DocumentParser.LegacyPartsShape | backend/app/services/document_parser.py:297-302 | the k-th page with text has its marker at 2k and its text at 2k+1 |
| DocumentParser.ExtractFromPdf | backend/app/services/document_parser.py:291-308 | an error when the PDF cannot be opened; otherwise the pieces joined by newlines |
| DocumentParser.ExtractText | backend/app/services/document_parser.py:272-289 | the PDF's text, the text file's contents, or an error for any other suffix |

## Left out

- Rendering and layout: matplotlib, ReportLab, PyMuPDF pixmaps, Pillow copies and image sizes (width, height, bounding boxes). Their results are parameters.
- I/O, the database session, the clock, process ids and environment variables are parameters. Redis and RQ scheduling in `beautify_document` are not modelled: the job record is created and its background run is taken as scheduled.
- Concurrency and timing: asyncio scheduling and the wall-clock timeout are replaced by an explicit schedule of reads (`Poll`, `Deliver`, `Raise`).
- Floating point:
  - the simulation's step and default values and its numeric data grids (NumPy);
  - `compute_point`;
  - `_calculate_complexity`.
- The analyser's `solve_for_variable` and the `domain` field are left out. So is the document parser's `extract_metadata`. The SymPy parsing and simplification themselves are represented only by an oracle.
- The regular-expression engine is left out: the extractor's matches are inputs. `identify_section` receives each pattern's match groups.
- BackgroundTasks.Progress: the model uses exact floor arithmetic for `int((i / n) * 80)`, not float rounding.
- Text.Lower: case folding covers ASCII and Latin-1 only; alphanumerics are the ASCII ones.
- Documents.UploadDocument: the rejection message lists the allowed suffixes in one fixed order; the source joins a set, whose order Python leaves unspecified.
- Documents.SafeName: keeps only ASCII letters and digits (and `._-`); Python's `isalnum` also keeps non-ASCII letters and digits, which the model replaces by `_`.
- SimulationEngine.MaxEstimate: two pi is the symbolic value `FullTurn`, not a float.
- The `"T"` entry of the max-value table can never be looked up (the key is lowercased first). It is kept in the table and proved harmless by `MaxAboveMin`.
- LlmClient.Client.Complete: the SDK call, its timeout and its logging are the `outcome` parameter.
- DocumentProcessor.Concepts: the JSON parse of the model's reply is the `reply` parameter.
- VisualBeautifier.RenderPdfPage: the "not found" message carries the path as given, not `os.path.abspath` of it.
- Documents.ProcessUpload: follows the corrected LaTeX join; as written, any extracted equation makes the endpoint answer 500, which only `LatexJoinRejectsEquations` states.
- EquationAnalyzer.ExtractVariables and EquationAnalyzer.AnalyzeEquation: follow the corrected constant test, so "R" and the mis-encoded pi are constants. As written they are variables (`ListedConstantsMissed`); "G" is a constant either way, found through "g" (`ListedGIsRedundant`). `SimulationEngine.SelectKeyVariables` filters on the kinds it is given, so fed from these records it drops "R" and the mis-encoded pi, which the source as written would keep as sliders.
- Documents.DownloadPdf: a missing file name raises inside the handler and is modelled as the 500 reply. The temporary file is not modelled.

## Findings

| source | as written | input that shows it | evidently intended | confidence | as-written member | corrected member |
|---|---|---|---|---|---|---|
| backend/app/services/equation_analyzer.py:108-112 | the symbol is lowercased before it is looked up, but the set lists "G", "R" and a mis-encoded pi; "G" still matches through "g", so that entry is only redundant | "R" (the gas constant) is classified as a variable | the listed names are recognised as written, or in lowercase | high; not executed | EquationAnalyzer.ListedConstantsMissed | EquationAnalyzer.ConstantsRecognised |
| backend/app/api/v1/documents.py:215-216 | `"\n".join(equations)` is applied to equation records, not strings, and raises a TypeError | an OCR text holding one equation such as `$E = mc^2$`: the endpoint answers 500. This is latent today: the OCR engine returns None or a fixed placeholder with no `$`, `\begin` or `\[` (backend/app/services/ocr_engine.py:29-35) | the `latex` fields joined by newlines | high; not executed | Documents.LatexJoinRejectsEquations | Documents.LatexContentSplits |
