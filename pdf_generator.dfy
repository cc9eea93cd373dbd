/**
 * The text side of the PDF generator (backend/app/services/pdf_generator.py):
 * the delimiter stripping done before an equation is rendered, the Latin-1
 * scrubber, the HTML escaper and the line-oriented markdown/LaTeX block parser.
 * Rendering itself (matplotlib, ReportLab) is outside the model.
 */
module PdfGenerator {
  import opened Wrappers
  import opened Text

  // ---------------------------------------------------------------------------
  // render_equation: delimiter stripping

  /**
   * One `$$…$$` pair removed, or else one `$…$` pair; Python's `s[2:-2]` and
   * `s[1:-1]` are empty when the string is too short for both ends.
   */
  function StripDelimiters(c: string): (r: string)
    ensures |r| <= |c|
  {
    if StartsWith(c, "$$") && EndsWith(c, "$$") then (if |c| >= 4 then c[2..|c| - 2] else "")
    else if StartsWith(c, "$") && EndsWith(c, "$") then (if |c| >= 2 then c[1..|c| - 1] else "")
    else c
  }

  /**
   * What `render_equation` hands to the renderer: the stripped text without its
   * delimiters, or `None` when nothing is left.
   */
  function EquationBody(latex: string): (r: Option<string>)
    ensures r.Some? ==> r.value != [] && |r.value| <= |Strip(latex)|
    ensures r == None <==>
      var c := Strip(latex);
      if StartsWith(c, "$$") && EndsWith(c, "$$") then |c| <= 4
      else if StartsWith(c, "$") && EndsWith(c, "$") then |c| <= 2
      else c == ""
  {
    var body := StripDelimiters(Strip(latex));
    if body == "" then None else Some(body)
  }

  /** The string given to mathtext: inline as `$…$`, block with `\displaystyle`. */
  function RenderString(body: string, isInline: bool): (r: string)
    ensures StartsWith(r, "$") && EndsWith(r, "$")
  {
    if isInline then "$" + body + "$" else "$\\displaystyle " + body + "$"
  }

  /** An input that strips to `$$`, the input `"$$"` among them, has nothing left to render. */
  lemma EmptyDisplayMath(latex: string)
    requires Strip(latex) == "$$"
    ensures EquationBody(latex) == None
  {
    var c := Strip(latex);
    assert StartsWith(c, "$$") && EndsWith(c, "$$");
  }

  /** Removing the delimiters of `$$b$$` gives `b`. */
  lemma UnwrapDisplay(b: string)
    requires b != []
    ensures StripDelimiters("$$" + b + "$$") == b
  {
    var w := "$$" + b + "$$";
    assert StartsWith(w, "$$") by { assert w[..2] == "$$"; }
    assert EndsWith(w, "$$") by { assert w[|w| - 2..] == "$$"; }
    assert w[2..|w| - 2] == b;
  }

  /** Removing the delimiters of `$b$` gives `b` unless `b` itself looks like `$…$`. */
  lemma UnwrapInline(b: string)
    requires b != [] && !(b[0] == '$' && b[|b| - 1] == '$')
    ensures StripDelimiters("$" + b + "$") == b
  {
    var w := "$" + b + "$";
    assert StartsWith(w, "$") by { assert w[..1] == "$"; }
    assert EndsWith(w, "$") by { assert w[|w| - 1..] == "$"; }
    assert w[1] == b[0] && w[|w| - 2] == b[|b| - 1];
    assert w[1..|w| - 1] == b;
  }

  /** Wrapping a body in `$$…$$` and preparing it for rendering gives the body back. */
  lemma DisplayDelimitersRoundTrip(b: string)
    requires b != [] && !IsSpace(b[0]) && !IsSpace(b[|b| - 1])
    ensures EquationBody("$$" + b + "$$") == Some(b)
  {
    var w := "$$" + b + "$$";
    assert w[0] == '$' && w[|w| - 1] == '$';
    StripUnchanged(w);
    UnwrapDisplay(b);
  }

  /** The same for single `$` delimiters. */
  lemma InlineDelimitersRoundTrip(b: string)
    requires b != [] && !(b[0] == '$' && b[|b| - 1] == '$')
    ensures EquationBody("$" + b + "$") == Some(b)
  {
    var w := "$" + b + "$";
    assert w[0] == '$' && w[|w| - 1] == '$';
    StripUnchanged(w);
    UnwrapInline(b);
  }

  // ---------------------------------------------------------------------------
  // Replacing each key of a table in turn

  /** A replacement table, applied entry by entry as the source's `for old, new in ….items()` loops do. */
  type Table = seq<(char, string)>

  /**
   * Applying the entries one after another acts on each character alone when the
   * keys are distinct and no later key occurs in an earlier replacement.
   */
  predicate Sequential(t: Table) {
    forall i, j :: 0 <= i < j < |t| ==> t[i].0 != t[j].0 && t[j].0 !in t[i].1
  }

  /** What one character becomes under the table. */
  function CharImage(t: Table, c: char): string {
    if t == [] then [c]
    else if t[|t| - 1].0 == c then t[|t| - 1].1
    else CharImage(t[..|t| - 1], c)
  }

  function MapAll(t: Table, s: string): string {
    if s == [] then [] else CharImage(t, s[0]) + MapAll(t, s[1..])
  }

  lemma {:induction false} MapAllConcat(t: Table, a: string, b: string)
    ensures MapAll(t, a + b) == MapAll(t, a) + MapAll(t, b)
  {
    if a != [] {
      assert (a + b)[0] == a[0] && (a + b)[1..] == a[1..] + b;
      MapAllConcat(t, a[1..], b);
    } else {
      assert a + b == b;
    }
  }

  lemma {:induction false} MapAllEmptyTable(s: string)
    ensures MapAll([], s) == s
  {
    if s != [] {
      MapAllEmptyTable(s[1..]);
    }
  }

  lemma {:induction false} NotAKey(t: Table, c: char)
    requires forall j :: 0 <= j < |t| ==> t[j].0 != c
    ensures CharImage(t, c) == [c]
  {
    if t != [] {
      NotAKey(t[..|t| - 1], c);
    }
  }

  lemma {:induction false} ImageAvoids(t: Table, c: char, d: char)
    requires d != c && forall j :: 0 <= j < |t| ==> d !in t[j].1
    ensures d !in CharImage(t, c)
  {
    if t != [] && t[|t| - 1].0 != c {
      ImageAvoids(t[..|t| - 1], c, d);
    }
  }

  /** One more turn of the loop: replacing entry `k` in the image under the first `k` entries. */
  lemma {:induction false} ReplaceStep(t: Table, k: nat, s: string)
    requires Sequential(t) && k < |t|
    ensures ReplaceChar(MapAll(t[..k], s), t[k].0, t[k].1) == MapAll(t[..k + 1], s)
  {
    if s != [] {
      var c := s[0];
      assert t[..k + 1][..k] == t[..k];
      ReplaceCharConcat(CharImage(t[..k], c), MapAll(t[..k], s[1..]), t[k].0, t[k].1);
      if t[k].0 == c {
        NotAKey(t[..k], c);
      } else {
        ImageAvoids(t[..k], c, t[k].0);
        ReplaceCharAbsent(CharImage(t[..k], c), t[k].0, t[k].1);
      }
      ReplaceStep(t, k, s[1..]);
    }
  }

  /** `for old, new in table: text = text.replace(old, new)` */
  method ReplaceInTurn(t: Table, s: string) returns (text: string)
    requires Sequential(t)
    ensures text == MapAll(t, s)
  {
    text := s;
    MapAllEmptyTable(s);
    assert t[..0] == [];
    for k := 0 to |t|
      invariant text == MapAll(t[..k], s)
    {
      ReplaceStep(t, k, s);
      text := ReplaceChar(text, t[k].0, t[k].1);
    }
    assert t[..|t|] == t;
  }

  // ---------------------------------------------------------------------------
  // _scrub_text

  /** The punctuation table of `_scrub_text`, in its order. */
  const ScrubTable: Table := [
    ('\U{2013}', "-"), ('\U{2014}', "-"), ('\U{201C}', "\""), ('\U{201D}', "\""),
    ('\U{2018}', "'"), ('\U{2019}', "'"), ('\U{2026}', "..."), ('\U{2022}', "*"),
    ('\U{2192}', "->"), ('\U{2190}', "<-"), ('\U{2265}', ">="), ('\U{2264}', "<="),
    ('\U{2248}', "~"), ('\U{2260}', "!="), ('\U{00B1}', "+/-"), ('\U{00D7}', "x")
  ]

  predicate IsLatin1(c: char) {
    c as int < 256
  }

  predicate AllLatin1(s: string) {
    forall i :: 0 <= i < |s| ==> IsLatin1(s[i])
  }

  /** `''.join(c for c in text if ord(c) < 256)` */
  function KeepLatin1(s: string): (r: string)
    ensures AllLatin1(r) && |r| <= |s|
    ensures AllLatin1(s) ==> r == s
  {
    if s == [] then [] else (if IsLatin1(s[0]) then [s[0]] else []) + KeepLatin1(s[1..])
  }

  /** What `_scrub_text` computes: every listed mark replaced, then the non-Latin-1 characters dropped. */
  function Scrubbed(s: string): string {
    KeepLatin1(MapAll(ScrubTable, s))
  }

  lemma ScrubTableIsSequential()
    ensures Sequential(ScrubTable)
  {
    forall i, j | 0 <= i < j < |ScrubTable|
      ensures ScrubTable[i].0 != ScrubTable[j].0 && ScrubTable[j].0 !in ScrubTable[i].1
    {
      assert forall x :: x in ScrubTable[i].1 ==> x as int < 128;
      assert 128 <= ScrubTable[j].0 as int;
    }
  }

  method ScrubText(s: string) returns (text: string)
    ensures text == Scrubbed(s)
    ensures AllLatin1(text)
  {
    ScrubTableIsSequential();
    text := ReplaceInTurn(ScrubTable, s);
    if !AllLatin1(text) {
      text := KeepLatin1(text);
    }
  }

  lemma {:induction false} KeepLatin1Concat(a: string, b: string)
    ensures KeepLatin1(a + b) == KeepLatin1(a) + KeepLatin1(b)
  {
    if a != [] {
      assert (a + b)[0] == a[0] && (a + b)[1..] == a[1..] + b;
      KeepLatin1Concat(a[1..], b);
    } else {
      assert a + b == b;
    }
  }

  /** Scrubbing is a per-character translation. */
  lemma ScrubConcat(a: string, b: string)
    ensures Scrubbed(a + b) == Scrubbed(a) + Scrubbed(b)
  {
    MapAllConcat(ScrubTable, a, b);
    KeepLatin1Concat(MapAll(ScrubTable, a), MapAll(ScrubTable, b));
  }

  /** Each listed mark becomes its ASCII form. */
  lemma ScrubPunctuation(j: nat)
    requires j < |ScrubTable|
    ensures Scrubbed([ScrubTable[j].0]) == ScrubTable[j].1
  {
    var t := ScrubTable;
    ScrubTableIsSequential();
    assert MapAll(t, [t[j].0]) == CharImage(t, t[j].0) + MapAll(t, []);
    KeyImage(t, j);
    assert AllLatin1(t[j].1) by {
      assert forall i :: 0 <= i < |t| ==> AllLatin1(t[i].1);
    }
  }

  /** Under a sequential table a key becomes its own replacement. */
  lemma {:induction false} KeyImage(t: Table, j: nat)
    requires Sequential(t) && j < |t|
    ensures CharImage(t, t[j].0) == t[j].1
  {
    if j < |t| - 1 {
      assert t[..|t| - 1][j] == t[j];
      KeyImage(t[..|t| - 1], j);
    }
  }

  /** Any other character is kept when it is Latin-1 and dropped otherwise. */
  lemma ScrubOther(c: char)
    requires forall j :: 0 <= j < |ScrubTable| ==> ScrubTable[j].0 != c
    ensures Scrubbed([c]) == if IsLatin1(c) then [c] else []
  {
    NotAKey(ScrubTable, c);
    assert MapAll(ScrubTable, [c]) == CharImage(ScrubTable, c) + MapAll(ScrubTable, []);
  }

  // ---------------------------------------------------------------------------
  // _html_escape

  /** The entity table of `_html_escape`, `&` first. */
  const EscapeTable: Table := [
    ('&', "&amp;"), ('<', "&lt;"), ('>', "&gt;"), ('"', "&quot;"), ('\'', "&apos;")
  ]

  function Escaped(s: string): string {
    MapAll(EscapeTable, s)
  }

  lemma EscapeTableIsSequential()
    ensures Sequential(EscapeTable)
  {
  }

  method HtmlEscape(s: string) returns (text: string)
    ensures text == Escaped(s)
  {
    EscapeTableIsSequential();
    text := ReplaceInTurn(EscapeTable, s);
  }

  /** The five entities decoded; everything else is copied. */
  function Unescape(s: string): string
    decreases |s|
  {
    if s == [] then []
    else if StartsWith(s, "&amp;") then "&" + Unescape(s[5..])
    else if StartsWith(s, "&lt;") then "<" + Unescape(s[4..])
    else if StartsWith(s, "&gt;") then ">" + Unescape(s[4..])
    else if StartsWith(s, "&quot;") then "\"" + Unescape(s[6..])
    else if StartsWith(s, "&apos;") then "'" + Unescape(s[6..])
    else [s[0]] + Unescape(s[1..])
  }

  lemma EscapedChar(c: char)
    ensures CharImage(EscapeTable, c) == match c
      case '&' => "&amp;" case '<' => "&lt;" case '>' => "&gt;"
      case '"' => "&quot;" case '\'' => "&apos;" case _ => [c]
  {
    var t := EscapeTable;
    EscapeTableIsSequential();
    if j :| 0 <= j < |t| && t[j].0 == c {
      KeyImage(t, j);
    } else {
      assert t[0].0 == '&' && t[1].0 == '<' && t[2].0 == '>' && t[3].0 == '"' && t[4].0 == '\'';
      NotAKey(t, c);
    }
  }

  /** The escaped text contains no raw `<`, `>`, `"` or `'`. */
  lemma {:induction false} EscapedHasNoMarkup(s: string)
    ensures '<' !in Escaped(s) && '>' !in Escaped(s) && '"' !in Escaped(s) && '\'' !in Escaped(s)
  {
    if s != [] {
      EscapedChar(s[0]);
      EscapedHasNoMarkup(s[1..]);
    }
  }

  /** Decoding an escaped character in front of any text gives the character back. */
  lemma UnescapeCons(c: char, rest: string)
    ensures Unescape(CharImage(EscapeTable, c) + rest) == [c] + Unescape(rest)
  {
    EscapedChar(c);
    var w := CharImage(EscapeTable, c) + rest;
    if c == '&' {
      assert w[..5] == "&amp;" && w[5..] == rest;
    } else if c == '<' {
      assert w[..4] == "&lt;" && w[4..] == rest;
      DiffersAt(w, "&amp;", 1);
    } else if c == '>' {
      assert w[..4] == "&gt;" && w[4..] == rest;
      DiffersAt(w, "&amp;", 1);
      DiffersAt(w, "&lt;", 1);
    } else if c == '"' {
      assert w[..6] == "&quot;" && w[6..] == rest;
      DiffersAt(w, "&amp;", 1);
      DiffersAt(w, "&lt;", 1);
      DiffersAt(w, "&gt;", 1);
    } else if c == '\'' {
      assert w[..6] == "&apos;" && w[6..] == rest;
      DiffersAt(w, "&amp;", 2);
      DiffersAt(w, "&lt;", 1);
      DiffersAt(w, "&gt;", 1);
      DiffersAt(w, "&quot;", 1);
    } else {
      assert w[0] == c && w[1..] == rest;
      DiffersAt(w, "&amp;", 0);
      DiffersAt(w, "&lt;", 0);
      DiffersAt(w, "&gt;", 0);
      DiffersAt(w, "&quot;", 0);
      DiffersAt(w, "&apos;", 0);
    }
  }

  /** Decoding the entities gives back exactly the text that was escaped: `&` went first, so nothing is escaped twice. */
  lemma {:induction false} UnescapeEscaped(s: string)
    ensures Unescape(Escaped(s)) == s
  {
    if s != [] {
      UnescapeCons(s[0], Escaped(s[1..]));
      UnescapeEscaped(s[1..]);
      assert s == [s[0]] + s[1..];
    }
  }

  // ---------------------------------------------------------------------------
  // _parse_markdown

  /** One `(content, style)` pair of the parser's output. */
  datatype Element = Element(content: string, style: string)

  /** The pair a blank line produces: content "spacer", style "0.1". */
  const Spacer := Element("spacer", "0.1")

  /** The parser's flags and math buffer between lines. */
  datatype ParserState = ParserState(inCode: bool, inMath: bool, inRaw: bool, buffer: seq<string>)

  const Initial := ParserState(false, false, false, [])

  const LatexIndicators: seq<string> :=
    ["\\frac", "\\int", "\\sum", "\\partial", "\\nabla", "\\boxed", "\\lim"]

  predicate StartsWithIndicator(s: string) {
    exists k :: 0 <= k < |LatexIndicators| && StartsWith(s, LatexIndicators[k])
  }

  /** The tests the loop body makes of a stripped line, each computed once. */
  datatype LineFacts = LineFacts(
    text: string,
    isDollars: bool,      // the line is exactly `$$`
    opensMath: bool,      // starts with `$$` and does not end with it
    endsDollars: bool,    // ends with `$$`
    isEmpty: bool,
    isFence: bool,        // starts with three backticks
    isOneLineMath: bool,  // starts and ends with `$$`
    beginsEnv: bool,      // starts with `\begin{`
    endsEnv: bool,        // contains `\end{`
    isRawLatex: bool)     // starts with a LaTeX indicator and not with `$`

  function Facts(s: string): LineFacts {
    LineFacts(s, s == "$$", StartsWith(s, "$$") && !EndsWith(s, "$$"), EndsWith(s, "$$"), s == "",
              StartsWith(s, "```"), StartsWith(s, "$$") && EndsWith(s, "$$"),
              StartsWith(s, "\\begin{"), Contains(s, "\\end{"),
              StartsWithIndicator(s) && !StartsWith(s, "$"))
  }

  function Equation(lines: seq<string>): Element {
    Element("$$" + Join(" ", lines) + "$$", "equation")
  }

  /** Length of the run of digits that starts `s`. */
  function DigitRun(s: string): (d: nat)
    ensures d <= |s| && forall i :: 0 <= i < d ==> IsDigit(s[i])
    ensures d < |s| ==> !IsDigit(s[d])
  {
    if s != [] && IsDigit(s[0]) then 1 + DigitRun(s[1..]) else 0
  }

  /** `re.match(r'^\d+\.\s', s)` */
  predicate IsNumberedItem(s: string) {
    var d := DigitRun(s);
    d >= 1 && d + 1 < |s| && s[d] == '.' && IsSpace(s[d + 1])
  }

  /** The element of an ordinary (stripped, non-blank) line, by prefix in the source's order. */
  function Classify(s: string): Element {
    if StartsWith(s, "# ") then Element(Scrubbed(Strip(s[2..])), "title")
    else if StartsWith(s, "## ") then Element(Scrubbed(Strip(s[3..])), "heading2")
    else if StartsWith(s, "### ") then Element(Scrubbed(Strip(s[4..])), "heading3")
    else if StartsWith(s, "- ") || StartsWith(s, "* ") then Element(Scrubbed(Strip(s[2..])), "bullet")
    else if IsNumberedItem(s) then Element(Scrubbed(Strip(s[IndexOfChar(s, '.') + 1..])), "numbered")
    else if StartsWith(s, "> ") then Element(Scrubbed(Strip(s[2..])), "blockquote")
    else Element(Scrubbed(s), "body")
  }

  /** One stripped line: the next state and the elements it appends. */
  function Step(st: ParserState, f: LineFacts): (ParserState, seq<Element>) {
    var s := f.text;
    if f.isDollars then
      if st.inMath then (st.(inMath := false, buffer := []), [Equation(st.buffer)])
      else (st.(inMath := true, buffer := []), [])
    else if f.opensMath then (st.(inMath := true, buffer := [Drop(s, 2)]), [])
    else if st.inMath then
      if f.endsDollars then (st.(inMath := false, buffer := []), [Equation(st.buffer + [DropLast(s, 2)])])
      else (st.(buffer := st.buffer + [s]), [])
    else if f.isEmpty then (st, [Spacer])
    else if f.isFence then (st.(inCode := !st.inCode), [])
    else if st.inCode then (st, [Element(Scrubbed(s), "code")])
    else if f.isOneLineMath then (st, [Element(s, "equation")])
    else if f.beginsEnv then
      if f.endsEnv then (st.(inRaw := false, buffer := []), [Element("$$" + s + "$$", "equation")])
      else (st.(inRaw := true, buffer := [s]), [])
    else if st.inRaw then
      if f.endsEnv then (st.(inRaw := false, buffer := []), [Equation(st.buffer + [s])])
      else (st.(buffer := st.buffer + [s]), [])
    else if f.isRawLatex then (st, [Element("$$" + s + "$$", "equation")])
    else (st, [Classify(s)])
  }

  /** The tests of every line, each line stripped first. */
  function LinesFacts(lines: seq<string>): (r: seq<LineFacts>)
    ensures |r| == |lines| && forall i :: 0 <= i < |lines| ==> r[i] == Facts(Strip(lines[i]))
  {
    if lines == [] then [] else [Facts(Strip(lines[0]))] + LinesFacts(lines[1..])
  }

  /** The elements the remaining lines produce from state `st`. */
  function Run(st: ParserState, lines: seq<LineFacts>): seq<Element>
    decreases |lines|
  {
    if lines == [] then []
    else
      var next := Step(st, lines[0]);
      next.1 + Run(next.0, lines[1..])
  }

  /** What `_parse_markdown(text)` returns. */
  function Markdown(text: string): seq<Element> {
    Run(Initial, LinesFacts(Split(text, '\n')))
  }

  /** The element of an ordinary line, as the source writes the classification chain. */
  method ClassifyLine(s: string) returns (e: Element)
    ensures e == Classify(s)
  {
    var content: string;
    var style: string;
    if StartsWith(s, "# ") {
      content, style := Strip(s[2..]), "title";
    } else if StartsWith(s, "## ") {
      content, style := Strip(s[3..]), "heading2";
    } else if StartsWith(s, "### ") {
      content, style := Strip(s[4..]), "heading3";
    } else if StartsWith(s, "- ") || StartsWith(s, "* ") {
      content, style := Strip(s[2..]), "bullet";
    } else if IsNumberedItem(s) {
      content, style := Strip(s[IndexOfChar(s, '.') + 1..]), "numbered";
    } else if StartsWith(s, "> ") {
      content, style := Strip(s[2..]), "blockquote";
    } else {
      content, style := s, "body";
    }
    content := ScrubText(content);
    e := Element(content, style);
  }

  /** The body of the line loop: the flags and buffer after one line, and what it appends. */
  method ParseLine(st: ParserState, line: string) returns (st': ParserState, out: seq<Element>)
    ensures (st', out) == Step(st, Facts(Strip(line)))
  {
    var stripped := Strip(line);
    st' := st;
    out := [];
    if stripped == "$$" {
      if st.inMath {
        out := [Equation(st.buffer)];
        st' := st.(inMath := false, buffer := []);
      } else {
        st' := st.(inMath := true, buffer := []);
      }
    } else if StartsWith(stripped, "$$") && !EndsWith(stripped, "$$") {
      st' := st.(inMath := true, buffer := [stripped[2..]]);
    } else if st.inMath {
      if EndsWith(stripped, "$$") {
        out := [Equation(st.buffer + [stripped[..|stripped| - 2]])];
        st' := st.(inMath := false, buffer := []);
      } else {
        st' := st.(buffer := st.buffer + [stripped]);
      }
    } else if stripped == "" {
      out := [Spacer];
    } else if StartsWith(stripped, "```") {
      st' := st.(inCode := !st.inCode);
    } else if st.inCode {
      var code := ScrubText(stripped);
      out := [Element(code, "code")];
    } else if StartsWith(stripped, "$$") && EndsWith(stripped, "$$") {
      out := [Element(stripped, "equation")];
    } else if StartsWith(stripped, "\\begin{") {
      if Contains(stripped, "\\end{") {
        out := [Element("$$" + stripped + "$$", "equation")];
        st' := st.(inRaw := false, buffer := []);
      } else {
        st' := st.(inRaw := true, buffer := [stripped]);
      }
    } else if st.inRaw {
      var b := st.buffer + [stripped];
      if Contains(stripped, "\\end{") {
        out := [Equation(b)];
        st' := st.(inRaw := false, buffer := []);
      } else {
        st' := st.(buffer := b);
      }
    } else if StartsWithIndicator(stripped) && !StartsWith(stripped, "$") {
      out := [Element("$$" + stripped + "$$", "equation")];
    } else {
      var e := ClassifyLine(stripped);
      out := [e];
    }
  }

  /** `_parse_markdown`: one pass over the lines, at most one element per line. */
  method ParseMarkdown(text: string) returns (elements: seq<Element>)
    ensures elements == Markdown(text)
    ensures |elements| <= |Split(text, '\n')|
  {
    var lines := Split(text, '\n');
    ghost var facts := LinesFacts(lines);
    var st := Initial;
    elements := [];
    assert facts[0..] == facts;
    for i := 0 to |lines|
      invariant elements + Run(st, facts[i..]) == Run(Initial, facts)
    {
      var st', out := ParseLine(st, lines[i]);
      assert (st', out) == Step(st, facts[i]);
      RunAt(st, facts, i);
      elements := elements + out;
      st := st';
    }
    assert facts[|lines|..] == [];
    AtMostOnePerLine(Initial, facts);
  }

  /** The run from line `i` is that line's elements followed by the run from line `i + 1`. */
  lemma RunAt(st: ParserState, facts: seq<LineFacts>, i: nat)
    requires i < |facts|
    ensures Run(st, facts[i..]) == Step(st, facts[i]).1 + Run(Step(st, facts[i]).0, facts[i + 1..])
  {
    assert facts[i..][0] == facts[i] && facts[i..][1..] == facts[i + 1..];
  }

  /** Each line contributes at most one element. */
  lemma {:induction false} AtMostOnePerLine(st: ParserState, lines: seq<LineFacts>)
    ensures |Run(st, lines)| <= |lines|
    decreases |lines|
  {
    if lines != [] {
      AtMostOnePerLine(Step(st, lines[0]).0, lines[1..]);
    }
  }

  /** A line that neither closes a `$$` block nor reopens one. */
  predicate MathBodyLine(line: string) {
    var s := Strip(line);
    !StartsWith(s, "$$") && !EndsWith(s, "$$")
  }

  function StripAll(lines: seq<string>): (r: seq<string>)
    ensures |r| == |lines| && forall i :: 0 <= i < |lines| ==> r[i] == Strip(lines[i])
  {
    seq(|lines|, i requires 0 <= i < |lines| => Strip(lines[i]))
  }

  /** The tests of a line inside a `$$` block that neither closes nor reopens it. */
  predicate InMathBody(f: LineFacts) {
    !f.isDollars && !f.opensMath && !f.endsDollars
  }

  function Texts(fs: seq<LineFacts>): (r: seq<string>)
    ensures |r| == |fs| && forall i :: 0 <= i < |fs| ==> r[i] == fs[i].text
  {
    if fs == [] then [] else [fs[0].text] + Texts(fs[1..])
  }

  /** A body line inside a `$$` block is buffered and emits nothing. */
  lemma RunMathBodyLine(st: ParserState, body: seq<LineFacts>, closer: LineFacts, rest: seq<LineFacts>)
    requires st.inMath && body != [] && InMathBody(body[0])
    ensures Run(st, body + [closer] + rest)
         == Run(st.(buffer := st.buffer + [body[0].text]), body[1..] + [closer] + rest)
  {
    var tail := body[1..] + [closer] + rest;
    assert body + [closer] + rest == [body[0]] + tail;
    assert ([body[0]] + tail)[0] == body[0] && ([body[0]] + tail)[1..] == tail;
  }

  lemma TextsCons(buffer: seq<string>, body: seq<LineFacts>)
    requires body != []
    ensures buffer + [body[0].text] + Texts(body[1..]) == buffer + Texts(body)
  {
  }

  /** Inside a `$$` block the body lines are buffered and the line `$$` emits them joined by single spaces. */
  lemma {:induction false} MathBlockCollects(st: ParserState, body: seq<LineFacts>, closer: LineFacts, rest: seq<LineFacts>)
    requires st.inMath && closer.isDollars
    requires forall i :: 0 <= i < |body| ==> InMathBody(body[i])
    ensures Run(st, body + [closer] + rest)
         == [Equation(st.buffer + Texts(body))] + Run(st.(inMath := false, buffer := []), rest)
    decreases |body|
  {
    if body == [] {
      var lines := body + [closer] + rest;
      assert lines[0] == closer && lines[1..] == rest;
      assert st.buffer + Texts(body) == st.buffer;
    } else {
      RunMathBodyLine(st, body, closer, rest);
      TextsCons(st.buffer, body);
      MathBlockCollects(st.(buffer := st.buffer + [body[0].text]), body[1..], closer, rest);
    }
  }

  lemma {:induction false} LinesFactsConcat(a: seq<string>, b: seq<string>)
    ensures LinesFacts(a + b) == LinesFacts(a) + LinesFacts(b)
  {
    if a != [] {
      assert (a + b)[0] == a[0] && (a + b)[1..] == a[1..] + b;
      LinesFactsConcat(a[1..], b);
    } else {
      assert a + b == b;
    }
  }

  /** The facts of the lines of a math block, piece by piece. */
  lemma MathBlockFacts(opener: string, body: seq<string>, closer: string, rest: seq<string>)
    ensures LinesFacts([opener] + body + [closer] + rest)
         == [Facts(Strip(opener))] + (LinesFacts(body) + [Facts(Strip(closer))] + LinesFacts(rest))
  {
    var tail := body + [closer] + rest;
    assert [opener] + body + [closer] + rest == [opener] + tail;
    assert ([opener] + tail)[0] == opener && ([opener] + tail)[1..] == tail;
    LinesFactsConcat(body + [closer], rest);
    LinesFactsConcat(body, [closer]);
    assert LinesFacts([closer]) == [Facts(Strip(closer))];
  }

  /** The facts of the body lines of a math block. */
  lemma MathBodyFacts(body: seq<string>)
    requires forall i :: 0 <= i < |body| ==> MathBodyLine(body[i])
    ensures forall i :: 0 <= i < |body| ==> InMathBody(LinesFacts(body)[i])
    ensures Texts(LinesFacts(body)) == StripAll(body)
  {
  }

  /** Outside a math block the line `$$` opens one with an empty buffer. */
  lemma RunOpensMath(st: ParserState, f: LineFacts, rest: seq<LineFacts>)
    requires !st.inMath && f.isDollars
    ensures Run(st, [f] + rest) == Run(st.(inMath := true, buffer := []), rest)
  {
    assert ([f] + rest)[0] == f && ([f] + rest)[1..] == rest;
  }

  /**
   * An opening `$$` line, body lines and a closing `$$` line become one equation
   * element holding the stripped body lines joined by single spaces; the other flags are untouched.
   */
  lemma MathBlock(st: ParserState, opener: string, body: seq<string>, closer: string, rest: seq<string>)
    requires !st.inMath && Strip(opener) == "$$" && Strip(closer) == "$$"
    requires forall i :: 0 <= i < |body| ==> MathBodyLine(body[i])
    ensures Run(st, LinesFacts([opener] + body + [closer] + rest))
         == [Equation(StripAll(body))] + Run(st.(buffer := []), LinesFacts(rest))
  {
    var fb := LinesFacts(body);
    MathBlockFacts(opener, body, closer, rest);
    RunOpensMath(st, Facts(Strip(opener)), fb + [Facts(Strip(closer))] + LinesFacts(rest));
    MathBodyFacts(body);
    MathBlockCollects(st.(inMath := true, buffer := []), fb, Facts(Strip(closer)), LinesFacts(rest));
    assert [] + Texts(fb) == StripAll(body);
    assert st.(inMath := true, buffer := []).(inMath := false, buffer := []) == st.(buffer := []);
  }

  /** When no line closes an open `$$` block, the rest of the input emits nothing. */
  lemma {:induction false} UnclosedMathEmitsNothing(st: ParserState, lines: seq<string>)
    requires st.inMath
    requires forall i :: 0 <= i < |lines| ==> !EndsWith(Strip(lines[i]), "$$")
    ensures Run(st, LinesFacts(lines)) == []
    decreases |lines|
  {
    if lines != [] {
      var fs := LinesFacts(lines);
      assert fs[1..] == LinesFacts(lines[1..]);
      StepInsideMath(st, lines[0]);
      UnclosedMathEmitsNothing(Step(st, fs[0]).0, lines[1..]);
    }
  }

  /** While a `$$` block is open, a line that does not end with `$$` emits nothing and keeps it open. */
  lemma StepInsideMath(st: ParserState, line: string)
    requires st.inMath && !EndsWith(Strip(line), "$$")
    ensures Step(st, Facts(Strip(line))).1 == [] && Step(st, Facts(Strip(line))).0.inMath
  {
  }

  /** Outside a math block a blank line yields the spacer pair, whose style is "0.1" and not "spacer". */
  lemma BlankLineIsSpacer(st: ParserState, line: string)
    requires !st.inMath && IsBlank(line)
    ensures Step(st, Facts(Strip(line))) == (st, [Spacer])
    ensures Spacer.style != "spacer"
  {
    StripEmptyIffBlank(line);
  }

  /** A fence line toggles code mode and emits nothing. */
  lemma FenceToggles(st: ParserState, line: string)
    requires !st.inMath && StartsWith(Strip(line), "```")
    ensures Step(st, Facts(Strip(line))) == (st.(inCode := !st.inCode), [])
  {
    var s := Strip(line);
    assert s[..3] == "```";
    DiffersAt(s, "$$", 0);
  }

  /** In code mode an ordinary non-blank line becomes a scrubbed code element. */
  lemma CodeLine(st: ParserState, line: string)
    requires !st.inMath && st.inCode
    requires var s := Strip(line); s != "" && !StartsWith(s, "```") && !StartsWith(s, "$$")
    ensures Step(st, Facts(Strip(line))) == (st, [Element(Scrubbed(Strip(line)), "code")])
  {
  }

  function Hashes(n: nat): (r: string)
    ensures |r| == n && forall i :: 0 <= i < n ==> r[i] == '#'
  {
    if n == 0 then "" else "#" + Hashes(n - 1)
  }

  /** The heading line `#…# t` of level 1 to 3 and what its text is after the prefix. */
  lemma HeadingPrefix(level: nat, t: string)
    requires 1 <= level <= 3 && t != [] && t[0] != ' ' && t[0] != '#'
    ensures var s := Hashes(level) + " " + t;
      s[level + 1..] == t
      && StartsWith(s, "# ") == (level == 1)
      && StartsWith(s, "## ") == (level == 2)
      && StartsWith(s, "### ") == (level == 3)
  {
    var s := Hashes(level) + " " + t;
    assert s[level + 1..] == t;
    assert s[level] == ' ' && s[level + 1] == t[0];
    if level == 1 {
      assert s[..2] == "# ";
      DiffersAt(s, "## ", 1);
      DiffersAt(s, "### ", 1);
    } else if level == 2 {
      assert s[..3] == "## ";
      DiffersAt(s, "# ", 1);
      DiffersAt(s, "### ", 2);
    } else {
      assert s[..4] == "### ";
      DiffersAt(s, "# ", 1);
      DiffersAt(s, "## ", 2);
    }
  }

  /** Writing a heading of level 1, 2 or 3 and classifying it gives back the level and the text. */
  lemma HeadingRoundTrip(level: nat, t: string)
    requires 1 <= level <= 3
    requires t != [] && !IsSpace(t[0]) && t[0] != '#' && !IsSpace(t[|t| - 1]) && Scrubbed(t) == t
    ensures Classify(Hashes(level) + " " + t)
         == Element(t, if level == 1 then "title" else if level == 2 then "heading2" else "heading3")
  {
    HeadingPrefix(level, t);
    StripUnchanged(t);
  }

  /** A bullet line `- t` or `* t` classifies as a bullet holding the stripped text after the marker. */
  lemma BulletLine(marker: char, t: string)
    requires marker == '-' || marker == '*'
    ensures Classify([marker, ' '] + t) == Element(Scrubbed(Strip(t)), "bullet")
  {
    var s := [marker, ' '] + t;
    DiffersAt(s, "# ", 0);
    DiffersAt(s, "## ", 0);
    DiffersAt(s, "### ", 0);
    if marker == '-' {
      assert s[..2] == "- ";
    } else {
      assert s[..2] == "* ";
    }
    assert s[2..] == t;
  }

  /**
   * A numbered line (digits, a dot, then white space) classifies as a numbered item holding the
   * stripped text after the first dot, so the number itself is dropped.
   */
  lemma NumberedLine(digits: string, t: string)
    requires digits != [] && forall i :: 0 <= i < |digits| ==> IsDigit(digits[i])
    requires t != [] && IsSpace(t[0])
    ensures Classify(digits + "." + t) == Element(Scrubbed(Strip(t)), "numbered")
  {
    var s := digits + "." + t;
    var n := |digits|;
    assert s[n] == '.' && s[n + 1] == t[0];
    assert forall i :: 0 <= i < n ==> s[i] == digits[i];
    assert IsDigit(s[0]);
    DiffersAt(s, "# ", 0);
    DiffersAt(s, "## ", 0);
    DiffersAt(s, "### ", 0);
    DiffersAt(s, "- ", 0);
    DiffersAt(s, "* ", 0);
    var d := DigitRun(s);
    assert d == n;
    assert IsNumberedItem(s);
    var k := IndexOfChar(s, '.');
    assert k == n;
    assert s[n + 1..] == t;
  }

  /** A quoted line `> t` classifies as a blockquote holding the stripped text after the marker. */
  lemma BlockquoteLine(t: string)
    ensures Classify("> " + t) == Element(Scrubbed(Strip(t)), "blockquote")
  {
    var s := "> " + t;
    DiffersAt(s, "# ", 0);
    DiffersAt(s, "## ", 0);
    DiffersAt(s, "### ", 0);
    DiffersAt(s, "- ", 0);
    DiffersAt(s, "* ", 0);
    assert !IsDigit(s[0]) && DigitRun(s) == 0;
    assert s[..2] == "> " && s[2..] == t;
  }

  /**
   * A line that starts with none of the markers `#`, `-`, `*`, `>` nor with a digit is body text,
   * kept whole (only scrubbed).
   */
  lemma BodyLine(s: string)
    requires s != [] && s[0] != '#' && s[0] != '-' && s[0] != '*' && s[0] != '>' && !IsDigit(s[0])
    ensures Classify(s) == Element(Scrubbed(s), "body")
  {
    DiffersAt(s, "# ", 0);
    DiffersAt(s, "## ", 0);
    DiffersAt(s, "### ", 0);
    DiffersAt(s, "- ", 0);
    DiffersAt(s, "* ", 0);
    DiffersAt(s, "> ", 0);
    assert DigitRun(s) == 0;
  }
}
