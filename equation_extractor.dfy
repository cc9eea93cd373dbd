/**
 * The equation extractor (backend/app/services/equation_extractor.py): which
 * regular-expression matches become equations, the duplicate filter on start
 * positions, the order of the result, the context window around an equation,
 * LaTeX clean-up and the section lookup. The regular expressions themselves are
 * not modelled: their matches are inputs, one list per pattern in pattern order,
 * each list in the order `finditer` yields it.
 */
module EquationExtractor {
  import opened Text

  /** One match of a pattern: its span in the text, `group(0)` and `group(1)`. */
  datatype RegexMatch = RegexMatch(start: nat, end: nat, whole: string, inner: string)

  /** `ExtractedEquation` */
  datatype Equation = Equation(latex: string, context: string, position: nat, rawMatch: string)

  /** Characters on each side of an equation that the context may use. */
  const ContextWindow := 200

  const MathIndicators: seq<string> := [
    "=", "+", "-", "*", "/", "^", "_",
    "\\frac", "\\int", "\\sum", "\\prod",
    "\\alpha", "\\beta", "\\gamma", "\\theta",
    "\\nabla", "\\partial", "\\Delta",
    "\\sin", "\\cos", "\\tan", "\\log", "\\exp",
    "\\sqrt", "\\leq", "\\geq", "\\neq"
  ]

  // ---------------------------------------------------------------------------
  // _looks_like_equation

  function HasAlnum(s: string): (r: bool)
    ensures r <==> exists i :: 0 <= i < |s| && IsAlnum(s[i])
  {
    if s == [] then false
    else if IsAlnum(s[0]) then true
    else
      assert forall i :: 1 <= i < |s| ==> s[i] == s[1..][i - 1];
      HasAlnum(s[1..])
  }

  /** Whether one of `indicators[k..]` occurs in `s`. */
  function AnyIndicator(s: string, indicators: seq<string>): (r: bool)
    ensures r <==> exists k :: 0 <= k < |indicators| && Contains(s, indicators[k])
  {
    if indicators == [] then false
    else if Contains(s, indicators[0]) then true
    else
      assert forall k :: 1 <= k < |indicators| ==> indicators[k] == indicators[1..][k - 1];
      AnyIndicator(s, indicators[1..])
  }

  /** No ASCII letter or digit: not an equation; otherwise an equation exactly when some indicator occurs. */
  function LooksLikeEquation(latex: string): (r: bool)
    ensures !(exists i :: 0 <= i < |latex| && IsAlnum(latex[i])) ==> !r
    ensures (exists i :: 0 <= i < |latex| && IsAlnum(latex[i])) ==>
              (r <==> exists k :: 0 <= k < |MathIndicators| && Contains(latex, MathIndicators[k]))
  {
    if !HasAlnum(latex) then false else AnyIndicator(latex, MathIndicators)
  }

  // ---------------------------------------------------------------------------
  // _extract_context

  predicate IsEndMark(c: char) {
    c == '.' || c == '!' || c == '?'
  }

  /** Length of the run of whitespace that starts `s`. */
  function SpaceRun(s: string): (k: nat)
    ensures k <= |s| && forall i :: 0 <= i < k ==> IsSpace(s[i])
    ensures k < |s| ==> !IsSpace(s[k])
  {
    if s != [] && IsSpace(s[0]) then 1 + SpaceRun(s[1..]) else 0
  }

  /** A match of the separator `[.!?]\s+` of the context splitter starts at `k`, within `s[..hi]`. */
  predicate SeparatorAt(s: string, k: int, hi: int) {
    0 <= k && k + 1 < hi <= |s| && IsEndMark(s[k]) && IsSpace(s[k + 1])
  }

  /** The end of the run of whitespace that starts at `i`, within `s[..hi]`. */
  function SkipSpaces(s: string, i: nat, hi: nat): (j: nat)
    requires i <= hi <= |s|
    ensures i <= j <= hi && (j < hi ==> !IsSpace(s[j]))
    ensures forall k :: i <= k < j ==> IsSpace(s[k])
    decreases hi - i
  {
    if i < hi && IsSpace(s[i]) then SkipSpaces(s, i + 1, hi) else i
  }

  /** Where the first piece of `re.split(r'[.!?]\s+', s[i..hi])` ends: at the first separator, or at `hi`. */
  function FirstSeparator(s: string, i: nat, hi: nat): (j: nat)
    requires i <= hi <= |s|
    ensures i <= j <= hi
    ensures j < hi ==> SeparatorAt(s, j, hi)
    ensures forall k :: i <= k < j ==> !SeparatorAt(s, k, hi)
    decreases hi - i
  {
    if i < hi && !SeparatorAt(s, i, hi) then FirstSeparator(s, i + 1, hi) else i
  }

  /**
   * Where the last piece of `re.split(r'[.!?]\s+', s[..hi])` starts, scanning
   * from `i` with the current piece starting at `cur`: each separator takes its
   * whole run of whitespace, and the scan resumes after it.
   */
  function LastPiece(s: string, i: nat, hi: nat, cur: nat): (r: nat)
    requires cur <= i <= hi <= |s|
    ensures cur <= r <= hi
    decreases hi - i
  {
    if i < hi && SeparatorAt(s, i, hi) then
      var j := SkipSpaces(s, i + 1, hi);
      LastPiece(s, j, hi, j)
    else if i < hi then LastPiece(s, i + 1, hi, cur)
    else cur
  }

  /** The last piece holds no separator, and it is empty only when the text ends in whitespace. */
  lemma {:induction false} LastPieceMeaning(s: string, i: nat, hi: nat, cur: nat)
    requires cur <= i <= hi <= |s|
    requires forall k :: cur <= k < i ==> !SeparatorAt(s, k, hi)
    ensures forall k :: LastPiece(s, i, hi, cur) <= k < hi ==> !SeparatorAt(s, k, hi)
    ensures cur < hi && !IsSpace(s[hi - 1]) ==> LastPiece(s, i, hi, cur) < hi
    decreases hi - i
  {
    if i < hi && SeparatorAt(s, i, hi) {
      var j := SkipSpaces(s, i + 1, hi);
      LastPieceMeaning(s, j, hi, j);
    } else if i < hi {
      LastPieceMeaning(s, i + 1, hi, cur);
    }
  }

  /** `s[lo..hi].strip()`, as the bounds of what is left. */
  function TrimRange(s: string, lo: nat, hi: nat): (r: (nat, nat))
    requires lo <= hi <= |s|
    ensures lo <= r.0 <= r.1 <= hi
    ensures r.0 < r.1 ==> !IsSpace(s[r.0]) && !IsSpace(s[r.1 - 1])
    decreases hi - lo
  {
    if lo < hi && IsSpace(s[lo]) then TrimRange(s, lo + 1, hi)
    else if lo < hi && IsSpace(s[hi - 1]) then TrimRange(s, lo, hi - 1)
    else (lo, hi)
  }

  /** The bounds are those of the stripped slice. */
  lemma {:induction false} TrimRangeIsStrip(s: string, lo: nat, hi: nat)
    requires lo <= hi <= |s|
    ensures s[TrimRange(s, lo, hi).0..TrimRange(s, lo, hi).1] == Strip(s[lo..hi])
    decreases hi - lo, 1
  {
    if lo < hi && IsSpace(s[lo]) {
      TrimRangeIsStripFront(s, lo, hi);
    } else if lo < hi && IsSpace(s[hi - 1]) {
      TrimRangeIsStripBack(s, lo, hi);
    } else if lo < hi {
      var t := s[lo..hi];
      assert t[0] == s[lo] && t[|t| - 1] == s[hi - 1];
    }
  }

  /** The case where the slice starts with whitespace. */
  lemma {:induction false} TrimRangeIsStripFront(s: string, lo: nat, hi: nat)
    requires lo < hi <= |s| && IsSpace(s[lo])
    ensures s[TrimRange(s, lo, hi).0..TrimRange(s, lo, hi).1] == Strip(s[lo..hi])
    decreases hi - lo, 0
  {
    var t := s[lo..hi];
    assert t[0] == s[lo] && t[1..] == s[lo + 1..hi];
    assert Strip(t) == Strip(s[lo + 1..hi]);
    TrimRangeIsStrip(s, lo + 1, hi);
  }

  /** The case where the slice starts with a non-space and ends with whitespace. */
  lemma {:induction false} TrimRangeIsStripBack(s: string, lo: nat, hi: nat)
    requires lo < hi <= |s| && !IsSpace(s[lo]) && IsSpace(s[hi - 1])
    ensures s[TrimRange(s, lo, hi).0..TrimRange(s, lo, hi).1] == Strip(s[lo..hi])
    decreases hi - lo, 0
  {
    var t := s[lo..hi];
    assert t[0] == s[lo] && t[|t| - 1] == s[hi - 1] && t[..|t| - 1] == s[lo..hi - 1];
    assert Strip(t) == Strip(s[lo..hi - 1]);
    TrimRangeIsStrip(s, lo, hi - 1);
  }

  /** Trimming never cuts off a non-space character. */
  lemma {:induction false} TrimRangeKeeps(s: string, lo: nat, hi: nat, i: nat)
    requires lo <= i < hi <= |s| && !IsSpace(s[i])
    ensures TrimRange(s, lo, hi).0 <= i < TrimRange(s, lo, hi).1
    decreases hi - lo
  {
    if IsSpace(s[lo]) {
      TrimRangeKeeps(s, lo + 1, hi, i);
    } else if IsSpace(s[hi - 1]) {
      TrimRangeKeeps(s, lo, hi - 1, i);
    }
  }

  /** Trimming a slice that is not all whitespace leaves a non-empty range. */
  lemma TrimRangeNonBlank(s: string, lo: nat, hi: nat)
    requires lo <= hi <= |s| && !IsBlank(s[lo..hi])
    ensures TrimRange(s, lo, hi).0 < TrimRange(s, lo, hi).1
  {
    var i :| 0 <= i < hi - lo && !IsSpace(s[lo..hi][i]);
    TrimRangeKeeps(s, lo, hi, lo + i);
  }

  /** The span of text the context is taken from: 200 characters each side, clipped to the text. */
  function Window(length: nat, start: nat, end: nat): (w: (nat, nat))
    ensures w.0 <= start && start - w.0 <= ContextWindow
    ensures w.1 <= length && (end + ContextWindow <= length ==> w.1 == end + ContextWindow)
    ensures Min(end, length) <= w.1
    ensures start >= ContextWindow ==> w.0 == start - ContextWindow
  {
    (Max(0, start - ContextWindow), Min(length, end + ContextWindow))
  }

  /** The stripped text before the equation, within the window, as bounds in the text. */
  function BeforeRange(text: string, start: nat, end: nat): (r: (nat, nat))
    ensures r.0 <= r.1 <= |text|
  {
    TrimRange(text, Min(Window(|text|, start, end).0, |text|), Min(start, |text|))
  }

  /** The stripped text after the equation, within the window, as bounds in the text. */
  function AfterRange(text: string, start: nat, end: nat): (r: (nat, nat))
    ensures r.0 <= r.1 <= |text|
  {
    TrimRange(text, Min(end, |text|), Window(|text|, start, end).1)
  }

  /** The last sentence of the stripped text before the equation, as bounds in the text (empty when that text is). */
  function LastSentenceBefore(text: string, start: nat, end: nat): (r: (nat, nat))
    ensures r.0 <= r.1 <= |text|
  {
    var b := BeforeRange(text, start, end);
    (LastPiece(text, b.0, b.1, b.0), b.1)
  }

  /** The first sentence of the stripped text after the equation, as bounds in the text (empty when that text is). */
  function FirstSentenceAfter(text: string, start: nat, end: nat): (r: (nat, nat))
    ensures r.0 <= r.1 <= |text|
  {
    var a := AfterRange(text, start, end);
    (a.0, FirstSeparator(text, a.0, a.1))
  }

  /** The sentences the context is made of: the last one before the equation and the first one after, where there is text. */
  function ContextParts(text: string, start: nat, end: nat): seq<string> {
    var b := BeforeRange(text, start, end);
    var a := AfterRange(text, start, end);
    var s1 := LastSentenceBefore(text, start, end);
    var s2 := FirstSentenceAfter(text, start, end);
    (if b.0 < b.1 then [text[s1.0..s1.1]] else []) + (if a.0 < a.1 then [text[s2.0..s2.1]] else [])
  }

  /** `_extract_context`: the context sentences joined by " [...] ". */
  function ExtractContext(text: string, start: nat, end: nat): string {
    Join(" [...] ", ContextParts(text, start, end))
  }

  /** The two ranges are the stripped Python slices `text[before_start:start]` and `text[end:after_end]`. */
  lemma RangesAreStrippedSlices(text: string, start: nat, end: nat)
    ensures var b := BeforeRange(text, start, end);
      text[b.0..b.1] == Strip(PySlice(text, Window(|text|, start, end).0, start))
    ensures var a := AfterRange(text, start, end);
      text[a.0..a.1] == Strip(PySlice(text, end, Window(|text|, start, end).1))
  {
    var w := Window(|text|, start, end);
    TrimRangeIsStrip(text, Min(w.0, |text|), Min(start, |text|));
    TrimRangeIsStrip(text, Min(end, |text|), w.1);
  }

  /** Blank text on both sides gives an empty context. */
  lemma ContextEmptyWhenBlank(text: string, start: nat, end: nat)
    requires IsBlank(PySlice(text, Window(|text|, start, end).0, start))
    requires IsBlank(PySlice(text, end, Window(|text|, start, end).1))
    ensures ExtractContext(text, start, end) == ""
  {
    RangesAreStrippedSlices(text, start, end);
    StripEmptyIffBlank(PySlice(text, Window(|text|, start, end).0, start));
    StripEmptyIffBlank(PySlice(text, end, Window(|text|, start, end).1));
  }

  /**
   * Text before the equation always contributes its last sentence, which is
   * not empty and holds no separator, at the front of the context.
   */
  lemma ContextStartsWithLastSentence(text: string, start: nat, end: nat)
    requires !IsBlank(PySlice(text, Window(|text|, start, end).0, start))
    ensures var s := LastSentenceBefore(text, start, end);
      s.0 < s.1 && StartsWith(ExtractContext(text, start, end), text[s.0..s.1])
      && forall k :: s.0 <= k < s.1 ==> !SeparatorAt(text, k, s.1)
  {
    var b := BeforeRange(text, start, end);
    var s := LastSentenceBefore(text, start, end);
    BeforeNotEmpty(text, start, end);
    LastPieceMeaning(text, b.0, b.1, b.0);
    var parts := ContextParts(text, start, end);
    assert parts[0] == text[s.0..s.1];
    JoinStartsWithFirst(" [...] ", parts);
  }

  /** Non-blank text before the equation leaves a non-empty range that ends in a non-space. */
  lemma BeforeNotEmpty(text: string, start: nat, end: nat)
    requires !IsBlank(PySlice(text, Window(|text|, start, end).0, start))
    ensures var b := BeforeRange(text, start, end);
      b.0 < b.1 && !IsSpace(text[b.1 - 1])
  {
    var w := Window(|text|, start, end);
    var lo, hi := Min(w.0, |text|), Min(start, |text|);
    assert PySlice(text, w.0, start) == text[lo..hi];
    TrimRangeNonBlank(text, lo, hi);
    assert BeforeRange(text, start, end) == TrimRange(text, lo, hi);
  }

  lemma JoinStartsWithFirst(sep: string, parts: seq<string>)
    requires parts != []
    ensures StartsWith(Join(sep, parts), parts[0])
  {
    if |parts| > 1 {
      assert (parts[0] + sep + Join(sep, parts[1..]))[..|parts[0]|] == parts[0];
    }
  }

  // ---------------------------------------------------------------------------
  // extract_equations

  /** A match passes the filters: its stripped inner text has at least two characters and looks like an equation. */
  predicate Keep(m: RegexMatch) {
    var latex := Strip(m.inner);
    |latex| >= 2 && LooksLikeEquation(latex)
  }

  function MakeEquation(text: string, m: RegexMatch): Equation {
    Equation(Strip(m.inner), ExtractContext(text, m.start, m.end), m.start, m.whole)
  }

  /** All matches, pattern after pattern. */
  function Flatten(found: seq<seq<RegexMatch>>): seq<RegexMatch> {
    if found == [] then [] else found[0] + Flatten(found[1..])
  }

  /** A match, decided: whether it passes the filters, and the equation it would give. */
  datatype Candidate = Candidate(keep: bool, equation: Equation)

  function CandidateOf(text: string, m: RegexMatch): (c: Candidate)
    ensures c.keep == Keep(m) && c.equation == MakeEquation(text, m) && c.equation.position == m.start
  {
    Candidate(Keep(m), MakeEquation(text, m))
  }

  function Candidates(text: string, ms: seq<RegexMatch>): (r: seq<Candidate>)
    ensures |r| == |ms|
  {
    if ms == [] then [] else [CandidateOf(text, ms[0])] + Candidates(text, ms[1..])
  }

  /** The equations the remaining candidates add, in discovery order, given the positions already claimed. */
  function Scan(seen: set<nat>, cs: seq<Candidate>): seq<Equation>
    decreases |cs|
  {
    if cs == [] then []
    else if cs[0].equation.position in seen || !cs[0].keep then Scan(seen, cs[1..])
    else [cs[0].equation] + Scan(seen + {cs[0].equation.position}, cs[1..])
  }

  /** The positions claimed once the candidates have been scanned. */
  function Claimed(seen: set<nat>, cs: seq<Candidate>): (r: set<nat>)
    ensures seen <= r
    decreases |cs|
  {
    if cs == [] then seen
    else if cs[0].equation.position in seen || !cs[0].keep then Claimed(seen, cs[1..])
    else Claimed(seen + {cs[0].equation.position}, cs[1..])
  }

  /** Scanning two runs of candidates one after the other is scanning them together. */
  lemma {:induction false} ScanConcat(seen: set<nat>, a: seq<Candidate>, b: seq<Candidate>)
    ensures Scan(seen, a + b) == Scan(seen, a) + Scan(Claimed(seen, a), b)
    ensures Claimed(seen, a + b) == Claimed(Claimed(seen, a), b)
    decreases |a|, 1
  {
    if a == [] {
      assert a + b == b;
    } else if a[0].equation.position in seen || !a[0].keep {
      ScanConcatSkip(seen, a, b);
    } else {
      ScanConcatTake(seen, a, b);
    }
  }

  /** The case where the first candidate is passed over. */
  lemma {:induction false} ScanConcatSkip(seen: set<nat>, a: seq<Candidate>, b: seq<Candidate>)
    requires a != [] && (a[0].equation.position in seen || !a[0].keep)
    ensures Scan(seen, a + b) == Scan(seen, a) + Scan(Claimed(seen, a), b)
    ensures Claimed(seen, a + b) == Claimed(Claimed(seen, a), b)
    decreases |a|, 0
  {
    assert (a + b)[0] == a[0] && (a + b)[1..] == a[1..] + b;
    ScanConcat(seen, a[1..], b);
  }

  /** The case where the first candidate claims its position. */
  lemma {:induction false} ScanConcatTake(seen: set<nat>, a: seq<Candidate>, b: seq<Candidate>)
    requires a != [] && a[0].equation.position !in seen && a[0].keep
    ensures Scan(seen, a + b) == Scan(seen, a) + Scan(Claimed(seen, a), b)
    ensures Claimed(seen, a + b) == Claimed(Claimed(seen, a), b)
    decreases |a|, 0
  {
    var seen' := seen + {a[0].equation.position};
    assert (a + b)[0] == a[0] && (a + b)[1..] == a[1..] + b;
    ScanConcat(seen', a[1..], b);
    assert Scan(seen, a + b) == [a[0].equation] + Scan(seen', a[1..] + b);
    assert Scan(seen, a) == [a[0].equation] + Scan(seen', a[1..]);
  }

  /** Candidate `k` is the first one at its position that passes the filters, and its position was not already taken. */
  predicate Claims(seen: set<nat>, cs: seq<Candidate>, k: int) {
    0 <= k < |cs| && cs[k].keep && cs[k].equation.position !in seen
    && forall j :: 0 <= j < k && cs[j].equation.position == cs[k].equation.position ==> !cs[j].keep
  }

  predicate DistinctPositions(eqs: seq<Equation>) {
    forall i, j :: 0 <= i < j < |eqs| ==> eqs[i].position != eqs[j].position
  }

  predicate SortedByPosition(eqs: seq<Equation>) {
    forall i, j :: 0 <= i < j < |eqs| ==> eqs[i].position <= eqs[j].position
  }

  /** No equation sits at a position already seen. */
  lemma {:induction false} ScanAvoidsSeen(seen: set<nat>, cs: seq<Candidate>)
    ensures forall e :: e in Scan(seen, cs) ==> e.position !in seen
    decreases |cs|
  {
    if cs != [] {
      if cs[0].equation.position in seen || !cs[0].keep {
        ScanAvoidsSeen(seen, cs[1..]);
      } else {
        ScanAvoidsSeen(seen + {cs[0].equation.position}, cs[1..]);
      }
    }
  }

  /** Every equation comes from a candidate that claims its position. */
  lemma {:induction false} ScanSound(seen: set<nat>, cs: seq<Candidate>)
    ensures forall e :: e in Scan(seen, cs) ==> exists k :: Claims(seen, cs, k) && e == cs[k].equation
    decreases |cs|
  {
    if cs != [] {
      var c := cs[0];
      var seen' := if c.equation.position in seen || !c.keep then seen else seen + {c.equation.position};
      ScanSound(seen', cs[1..]);
      forall e | e in Scan(seen, cs)
        ensures exists k :: Claims(seen, cs, k) && e == cs[k].equation
      {
        if seen' != seen && e == c.equation {
          assert Claims(seen, cs, 0);
        } else {
          assert e in Scan(seen', cs[1..]);
          var k :| Claims(seen', cs[1..], k) && e == cs[1..][k].equation;
          assert Claims(seen, cs, k + 1);
        }
      }
    }
  }

  /** Every candidate that passes the filters at a position not yet seen gives an equation at that position. */
  lemma {:induction false} ScanComplete(seen: set<nat>, cs: seq<Candidate>)
    ensures forall k :: 0 <= k < |cs| && cs[k].keep && cs[k].equation.position !in seen ==>
      exists e :: e in Scan(seen, cs) && e.position == cs[k].equation.position
    decreases |cs|
  {
    if cs != [] {
      var c := cs[0];
      var seen' := if c.equation.position in seen || !c.keep then seen else seen + {c.equation.position};
      ScanComplete(seen', cs[1..]);
      forall k | 0 <= k < |cs| && cs[k].keep && cs[k].equation.position !in seen
        ensures exists e :: e in Scan(seen, cs) && e.position == cs[k].equation.position
      {
        if k == 0 || cs[k].equation.position in seen' {
          assert c.equation in Scan(seen, cs);
        } else {
          assert cs[1..][k - 1] == cs[k];
          var e :| e in Scan(seen', cs[1..]) && e.position == cs[k].equation.position;
          assert e in Scan(seen, cs);
        }
      }
    }
  }

  /** No two equations share a start position. */
  lemma {:induction false} ScanDistinct(seen: set<nat>, cs: seq<Candidate>)
    ensures DistinctPositions(Scan(seen, cs))
    decreases |cs|
  {
    if cs != [] {
      var c := cs[0];
      if c.equation.position in seen || !c.keep {
        ScanDistinct(seen, cs[1..]);
      } else {
        var seen' := seen + {c.equation.position};
        var rest := Scan(seen', cs[1..]);
        ScanDistinct(seen', cs[1..]);
        ScanAvoidsSeen(seen', cs[1..]);
        var out := [c.equation] + rest;
        forall i, j | 0 <= i < j < |out|
          ensures out[i].position != out[j].position
        {
          if i == 0 {
            assert out[j] in rest;
          } else {
            assert out[i] == rest[i - 1] && out[j] == rest[j - 1];
          }
        }
      }
    }
  }

  /** Python's stable `list.sort(key=position)`. */
  function SortByPosition(eqs: seq<Equation>): (r: seq<Equation>)
    ensures SortedByPosition(r) && |r| == |eqs|
    ensures multiset(r) == multiset(eqs)
    ensures forall e :: e in r <==> e in eqs
  {
    if eqs == [] then []
    else
      assert eqs == [eqs[0]] + eqs[1..];
      var r := InsertBeforeEqual(eqs[0], SortByPosition(eqs[1..]));
      assert forall e :: e in r <==> e in multiset(r);
      r
  }

  /**
   * Inserts `e` before the first element whose position is not smaller: `e`
   * comes first in the original order, so it goes before the equal ones.
   */
  function InsertBeforeEqual(e: Equation, s: seq<Equation>): (r: seq<Equation>)
    requires SortedByPosition(s)
    ensures SortedByPosition(r) && |r| == |s| + 1
    ensures multiset(r) == multiset(s) + multiset{e}
  {
    if s == [] || e.position <= s[0].position then
      SortedCons([e] + s, e, s);
      [e] + s
    else
      var t := InsertBeforeEqual(e, s[1..]);
      assert s == [s[0]] + s[1..];
      SortedHeadBound(s);
      BoundThroughInsert(t, s[1..], e, s[0].position);
      assert t[0] in t;
      SortedCons([s[0]] + t, s[0], t);
      [s[0]] + t
  }

  /** In a sorted sequence no element after the first comes before it. */
  lemma SortedHeadBound(s: seq<Equation>)
    requires SortedByPosition(s) && s != []
    ensures forall y :: y in s[1..] ==> s[0].position <= y.position
  {
    forall y | y in s[1..]
      ensures s[0].position <= y.position
    {
      var k :| 0 <= k < |s[1..]| && s[1..][k] == y;
      assert s[k + 1] == y;
    }
  }

  /** A lower bound on the positions of `u` and of `e` bounds every element of `u` with `e` added. */
  lemma BoundThroughInsert(t: seq<Equation>, u: seq<Equation>, e: Equation, lo: nat)
    requires multiset(t) == multiset(u) + multiset{e}
    requires lo <= e.position && forall y :: y in u ==> lo <= y.position
    ensures forall y :: y in t ==> lo <= y.position
  {
    forall y | y in t
      ensures lo <= y.position
    {
      assert y in multiset(t);
      if y != e {
        assert y in multiset(u);
      }
    }
  }

  /** A sorted sequence stays sorted with an element in front that is not after its first. */
  lemma SortedCons(r: seq<Equation>, x: Equation, t: seq<Equation>)
    requires r == [x] + t && SortedByPosition(t)
    requires t == [] || x.position <= t[0].position
    ensures SortedByPosition(r)
  {
    forall i, j | 0 <= i < j < |r|
      ensures r[i].position <= r[j].position
    {
      if i == 0 {
        assert r[j] == t[j - 1];
      } else {
        assert r[i] == t[i - 1] && r[j] == t[j - 1];
      }
    }
  }

  /** A sequence with distinct positions keeps them with an element in front whose position it does not hold. */
  lemma DistinctCons(r: seq<Equation>, x: Equation, t: seq<Equation>)
    requires r == [x] + t && DistinctPositions(t)
    requires forall y :: y in t ==> y.position != x.position
    ensures DistinctPositions(r)
  {
    forall i, j | 0 <= i < j < |r|
      ensures r[i].position != r[j].position
    {
      if i == 0 {
        assert r[j] in t;
      } else {
        assert r[i] == t[i - 1] && r[j] == t[j - 1];
      }
    }
  }

  lemma {:induction false} InsertKeepsDistinct(e: Equation, s: seq<Equation>)
    requires SortedByPosition(s) && DistinctPositions(s)
    requires forall x :: x in s ==> x.position != e.position
    ensures DistinctPositions(InsertBeforeEqual(e, s))
  {
    if s == [] || e.position <= s[0].position {
      DistinctCons(InsertBeforeEqual(e, s), e, s);
    } else {
      var t := InsertBeforeEqual(e, s[1..]);
      assert DistinctPositions(s[1..]);
      InsertKeepsDistinct(e, s[1..]);
      forall y | y in t
        ensures y.position != s[0].position
      {
        assert y in multiset(t);
        if y != e {
          assert y in multiset(s[1..]);
          var k :| 0 <= k < |s[1..]| && s[1..][k] == y;
          assert s[k + 1] == y;
        }
      }
      DistinctCons(InsertBeforeEqual(e, s), s[0], t);
    }
  }

  lemma {:induction false} SortKeepsDistinct(eqs: seq<Equation>)
    requires DistinctPositions(eqs)
    ensures DistinctPositions(SortByPosition(eqs))
  {
    if eqs != [] {
      var rest := eqs[1..];
      assert DistinctPositions(rest);
      SortKeepsDistinct(rest);
      forall x | x in SortByPosition(rest)
        ensures x.position != eqs[0].position
      {
        var k :| 0 <= k < |rest| && rest[k] == x;
        assert eqs[k + 1] == x;
      }
      InsertKeepsDistinct(eqs[0], SortByPosition(rest));
    }
  }

  /** What `extract_equations` returns for the given matches. */
  function Extracted(text: string, found: seq<seq<RegexMatch>>): seq<Equation> {
    SortByPosition(Scan({}, Candidates(text, Flatten(found))))
  }

  /** The body of the inner loop: the positions seen and the equation list after one match. */
  method Consider(text: string, seen: set<nat>, m: RegexMatch, equations: seq<Equation>)
    returns (seen': set<nat>, equations': seq<Equation>)
    ensures seen' == Claimed(seen, [CandidateOf(text, m)])
    ensures equations' == equations + Scan(seen, [CandidateOf(text, m)])
  {
    assert [CandidateOf(text, m)][1..] == [];
    var latex := Strip(m.inner);
    seen', equations' := seen, equations;
    if m.start in seen {
      return;
    }
    if |latex| < 2 {
      return;
    }
    if !LooksLikeEquation(latex) {
      return;
    }
    seen' := seen + {m.start};
    var context := ExtractContext(text, m.start, m.end);
    equations' := equations + [Equation(latex, context, m.start, m.whole)];
  }

  /** The inner loop: one pattern's matches, scanned on top of `seen` and `equations`. */
  method ConsiderAll(text: string, seen: set<nat>, matches: seq<RegexMatch>, equations: seq<Equation>)
    returns (seen': set<nat>, equations': seq<Equation>)
    ensures seen' == Claimed(seen, Candidates(text, matches))
    ensures equations' == equations + Scan(seen, Candidates(text, matches))
  {
    seen', equations' := seen, equations;
    assert matches[..0] == [];
    for j := 0 to |matches|
      invariant seen' == Claimed(seen, Candidates(text, matches[..j]))
      invariant equations' == equations + Scan(seen, Candidates(text, matches[..j]))
    {
      ghost var seen0, equations0 := seen', equations';
      seen', equations' := Consider(text, seen', matches[j], equations');
      CandidatesSnoc(text, matches, j);
      ScanStep(seen, Candidates(text, matches[..j]), CandidateOf(text, matches[j]), equations, seen0, equations0, seen', equations');
    }
    assert matches[..|matches|] == matches;
  }

  /** `extract_equations`: every pattern's matches in turn, the first claim on a position wins, then sorted. */
  method ExtractEquations(text: string, found: seq<seq<RegexMatch>>) returns (equations: seq<Equation>)
    ensures equations == Extracted(text, found)
  {
    equations := [];
    var seen: set<nat> := {};
    assert found[..0] == [];
    for p := 0 to |found|
      invariant seen == Claimed({}, Candidates(text, Flatten(found[..p])))
      invariant equations == Scan({}, Candidates(text, Flatten(found[..p])))
    {
      ghost var done := Flatten(found[..p]);
      FlattenSnoc(found, p);
      CandidatesConcat(text, done, found[p]);
      ScanConcat({}, Candidates(text, done), Candidates(text, found[p]));
      seen, equations := ConsiderAll(text, seen, found[p], equations);
    }
    assert found[..|found|] == found;
    equations := SortByPosition(equations);
  }

  /** The matches of the first `p + 1` patterns are those of the first `p`, then those of pattern `p`. */
  lemma FlattenSnoc(found: seq<seq<RegexMatch>>, p: nat)
    requires p < |found|
    ensures Flatten(found[..p + 1]) == Flatten(found[..p]) + found[p]
  {
    assert found[..p + 1] == found[..p] + [found[p]];
    FlattenAppend(found[..p], found[p]);
  }

  lemma {:induction false} FlattenAppend(xs: seq<seq<RegexMatch>>, x: seq<RegexMatch>)
    ensures Flatten(xs + [x]) == Flatten(xs) + x
  {
    if xs == [] {
      assert xs + [x] == [x];
      assert Flatten([x]) == x + Flatten([]);
    } else {
      assert (xs + [x])[0] == xs[0] && (xs + [x])[1..] == xs[1..] + [x];
      FlattenAppend(xs[1..], x);
    }
  }

  /** Scanning a run of candidates and then one more, on top of `equations`, is scanning the longer run. */
  lemma ScanStep(seen: set<nat>, done: seq<Candidate>, c: Candidate, equations: seq<Equation>,
                 seen0: set<nat>, equations0: seq<Equation>, seen1: set<nat>, equations1: seq<Equation>)
    requires seen0 == Claimed(seen, done) && equations0 == equations + Scan(seen, done)
    requires seen1 == Claimed(seen0, [c]) && equations1 == equations0 + Scan(seen0, [c])
    ensures seen1 == Claimed(seen, done + [c]) && equations1 == equations + Scan(seen, done + [c])
  {
    ScanConcat(seen, done, [c]);
  }

  /** The candidates of the first `j + 1` matches are those of the first `j`, then that of match `j`. */
  lemma CandidatesSnoc(text: string, ms: seq<RegexMatch>, j: nat)
    requires j < |ms|
    ensures Candidates(text, ms[..j + 1]) == Candidates(text, ms[..j]) + [CandidateOf(text, ms[j])]
  {
    assert ms[..j + 1] == ms[..j] + [ms[j]];
    CandidatesConcat(text, ms[..j], [ms[j]]);
  }

  lemma {:induction false} CandidateAt(text: string, ms: seq<RegexMatch>, k: nat)
    requires k < |ms|
    ensures Candidates(text, ms)[k] == CandidateOf(text, ms[k])
  {
    if k > 0 {
      CandidateAt(text, ms[1..], k - 1);
    }
  }

  lemma {:induction false} CandidatesConcat(text: string, a: seq<RegexMatch>, b: seq<RegexMatch>)
    ensures Candidates(text, a + b) == Candidates(text, a) + Candidates(text, b)
  {
    if a != [] {
      assert (a + b)[0] == a[0] && (a + b)[1..] == a[1..] + b;
      CandidatesConcat(text, a[1..], b);
    } else {
      assert a + b == b;
    }
  }

  /** The properties of the scan, carried over to its sorted result. */
  lemma ScanSorted(seen: set<nat>, cs: seq<Candidate>)
    ensures forall i, j :: 0 <= i < j < |SortByPosition(Scan(seen, cs))| ==>
      SortByPosition(Scan(seen, cs))[i].position < SortByPosition(Scan(seen, cs))[j].position
    ensures forall e :: e in SortByPosition(Scan(seen, cs)) ==> exists k :: Claims(seen, cs, k) && e == cs[k].equation
    ensures forall k :: 0 <= k < |cs| && cs[k].keep && cs[k].equation.position !in seen ==>
      exists e :: e in SortByPosition(Scan(seen, cs)) && e.position == cs[k].equation.position
  {
    ScanSound(seen, cs);
    ScanComplete(seen, cs);
    ScanDistinct(seen, cs);
    SortKeepsDistinct(Scan(seen, cs));
  }

  /** The extracted equations come in strictly increasing order of position. */
  lemma ExtractedSorted(text: string, found: seq<seq<RegexMatch>>)
    ensures var r := Extracted(text, found);
      forall i, j :: 0 <= i < j < |r| ==> r[i].position < r[j].position
  {
    var cs := Candidates(text, Flatten(found));
    ScanSorted({}, cs);
    assert Extracted(text, found) == SortByPosition(Scan({}, cs));
  }

  /** Match `k` passes the filters and no earlier match at its start position does. */
  predicate FirstToPass(ms: seq<RegexMatch>, k: int) {
    0 <= k < |ms| && Keep(ms[k]) && forall j :: 0 <= j < k && ms[j].start == ms[k].start ==> !Keep(ms[j])
  }

  /** `e` is the equation made from a match that is the first to pass the filters at its position. */
  ghost predicate MadeFromFirstPass(text: string, ms: seq<RegexMatch>, e: Equation) {
    exists k :: FirstToPass(ms, k) && e == MakeEquation(text, ms[k])
  }

  /** What a claiming candidate says about the match it was made from. */
  lemma ClaimMeaning(text: string, ms: seq<RegexMatch>, k: nat)
    requires Claims({}, Candidates(text, ms), k)
    ensures FirstToPass(ms, k) && Candidates(text, ms)[k].equation == MakeEquation(text, ms[k])
  {
    CandidateAt(text, ms, k);
    forall j | 0 <= j < k && ms[j].start == ms[k].start
      ensures !Keep(ms[j])
    {
      CandidateAt(text, ms, j);
    }
  }

  /**
   * Each extracted equation is made from a match that passes the length and
   * equation filters and is the first such match at its start position.
   */
  lemma ExtractedFirstWins(text: string, found: seq<seq<RegexMatch>>)
    ensures forall e :: e in Extracted(text, found) ==> MadeFromFirstPass(text, Flatten(found), e)
  {
    var ms := Flatten(found);
    var cs := Candidates(text, ms);
    ScanSorted({}, cs);
    var r := Extracted(text, found);
    assert r == SortByPosition(Scan({}, cs));
    forall e | e in r
      ensures MadeFromFirstPass(text, ms, e)
    {
      var k :| Claims({}, cs, k) && e == cs[k].equation;
      ClaimMeaning(text, ms, k);
    }
  }

  /** Every extracted equation's LaTeX has at least two characters and looks like an equation. */
  lemma ExtractedFiltered(text: string, found: seq<seq<RegexMatch>>)
    ensures forall e :: e in Extracted(text, found) ==> |e.latex| >= 2 && LooksLikeEquation(e.latex)
  {
    var ms := Flatten(found);
    ExtractedFirstWins(text, found);
    forall e | e in Extracted(text, found)
      ensures |e.latex| >= 2 && LooksLikeEquation(e.latex)
    {
      assert MadeFromFirstPass(text, ms, e);
      var k :| FirstToPass(ms, k) && e == MakeEquation(text, ms[k]);
      assert e.latex == Strip(ms[k].inner);
    }
  }

  /** Every position at which some match passes the filters has an extracted equation. */
  lemma ExtractedComplete(text: string, found: seq<seq<RegexMatch>>)
    ensures var ms := Flatten(found);
      forall k :: 0 <= k < |ms| && Keep(ms[k]) ==> exists e :: e in Extracted(text, found) && e.position == ms[k].start
  {
    var ms := Flatten(found);
    var cs := Candidates(text, ms);
    ScanSorted({}, cs);
    var r := Extracted(text, found);
    assert r == SortByPosition(Scan({}, cs));
    forall k | 0 <= k < |ms| && Keep(ms[k])
      ensures exists e :: e in r && e.position == ms[k].start
    {
      CandidateAt(text, ms, k);
    }
  }

  // ---------------------------------------------------------------------------
  // identify_section

  /**
   * `identify_section`, given for each section pattern (in order) the first
   * groups of its matches in the text before the position: the last match of
   * the first pattern that matches at all, stripped, or "" when none matches.
   */
  method IdentifySection(groups: seq<seq<string>>) returns (title: string)
    ensures title == SectionOf(groups)
  {
    for p := 0 to |groups|
      invariant SectionOf(groups) == SectionOf(groups[p..])
    {
      assert groups[p..][0] == groups[p] && groups[p..][1..] == groups[p + 1..];
      if groups[p] != [] {
        return Strip(groups[p][|groups[p]| - 1]);
      }
    }
    assert groups[|groups|..] == [];
    return "";
  }

  function SectionOf(groups: seq<seq<string>>): string {
    if groups == [] then ""
    else if groups[0] != [] then Strip(groups[0][|groups[0]| - 1])
    else SectionOf(groups[1..])
  }

  /** No pattern matching before the position gives "". */
  lemma {:induction false} NoSectionIsEmpty(groups: seq<seq<string>>)
    requires forall p :: 0 <= p < |groups| ==> groups[p] == []
    ensures SectionOf(groups) == ""
  {
    if groups != [] {
      NoSectionIsEmpty(groups[1..]);
    }
  }

  /** Otherwise the first pattern with a match decides, by its match closest to the position. */
  lemma {:induction false} FirstMatchingPatternDecides(groups: seq<seq<string>>, p: nat)
    requires p < |groups| && groups[p] != []
    requires forall q :: 0 <= q < p ==> groups[q] == []
    ensures SectionOf(groups) == Strip(groups[p][|groups[p]| - 1])
  {
    if p > 0 {
      FirstMatchingPatternDecides(groups[1..], p - 1);
    }
  }

  // ---------------------------------------------------------------------------
  // clean_latex

  /** `s.split()`: the maximal runs of non-whitespace. */
  function Words(s: string): (r: seq<string>)
    ensures forall i :: 0 <= i < |r| ==> r[i] != [] && forall k :: 0 <= k < |r[i]| ==> !IsSpace(r[i][k])
    decreases |s|
  {
    var lead := SpaceRun(s);
    if lead == |s| then []
    else
      var t := s[lead..];
      var w := WordRun(t);
      [t[..w]] + Words(t[w..])
  }

  /** Length of the run of non-whitespace that starts `s`. */
  function WordRun(s: string): (k: nat)
    ensures k <= |s| && forall i :: 0 <= i < k ==> !IsSpace(s[i])
    ensures s != [] && !IsSpace(s[0]) ==> k >= 1
  {
    if s != [] && !IsSpace(s[0]) then 1 + WordRun(s[1..]) else 0
  }

  /** `' '.join(s.split())` */
  function CollapseSpaces(s: string): string {
    Join(" ", Words(s))
  }

  /** The only whitespace in a collapsed string is single spaces between words. */
  predicate SingleSpaced(s: string) {
    (s != [] ==> !IsSpace(s[0]) && !IsSpace(s[|s| - 1]))
    && forall i :: 0 <= i < |s| && IsSpace(s[i]) ==> s[i] == ' ' && i + 1 < |s| && !IsSpace(s[i + 1])
  }

  lemma {:induction false} JoinWordsSingleSpaced(words: seq<string>)
    requires forall i :: 0 <= i < |words| ==> words[i] != [] && forall k :: 0 <= k < |words[i]| ==> !IsSpace(words[i][k])
    ensures SingleSpaced(Join(" ", words))
  {
    if |words| > 1 {
      JoinWordsSingleSpaced(words[1..]);
      var w := words[0];
      var rest := Join(" ", words[1..]);
      assert rest != [] && !IsSpace(rest[0]) by {
        JoinStartsWithFirst(" ", words[1..]);
        assert rest[0] == words[1][0];
      }
      var s := w + " " + rest;
      assert forall i :: 0 <= i < |w| ==> s[i] == w[i];
      forall i | |w| <= i < |s| && IsSpace(s[i])
        ensures s[i] == ' ' && i + 1 < |s| && !IsSpace(s[i + 1])
      {
        if i == |w| {
          assert s[i + 1] == rest[0];
        } else {
          assert s[i] == rest[i - |w| - 1];
          assert i + 1 < |s| && s[i + 1] == rest[i - |w|];
        }
      }
      assert s[|s| - 1] == rest[|rest| - 1];
    }
  }

  lemma CollapseSingleSpaced(s: string)
    ensures SingleSpaced(CollapseSpaces(s))
  {
    JoinWordsSingleSpaced(Words(s));
  }

  /** `re.sub(r'%.*$', '', s, flags=re.MULTILINE)` on a string with no line breaks: cut at the first `%`. */
  function DropComment(s: string): (r: string)
    ensures |r| <= |s| && r == s[..|r|] && '%' !in r
  {
    s[..IndexOfChar(s, '%')]
  }

  /**
   * `re.sub(r'\s*op\s*', ' op ', s)`: a match starts at the first position from
   * which a run of whitespace reaches `op`, and takes the whitespace after it too.
   */
  function PadOperator(s: string, op: char): string
    requires !IsSpace(op)
    decreases |s|
  {
    if s == [] then []
    else
      var k := SpaceRun(s);
      if k < |s| && s[k] == op then
        var rest := s[k + 1..];
        [' ', op, ' '] + PadOperator(rest[SpaceRun(rest)..], op)
      else [s[0]] + PadOperator(s[1..], op)
  }

  /** Every occurrence of `op` in `r` has a space on each side. */
  predicate Spaced(r: string, op: char) {
    forall i :: 0 <= i < |r| && r[i] == op ==> 0 < i < |r| - 1 && r[i - 1] == ' ' && r[i + 1] == ' '
  }

  lemma SpacedCons(r: string, c: char, t: string, op: char)
    requires r == [c] + t && Spaced(t, op) && c != op && (t == [] || t[0] != op)
    ensures Spaced(r, op)
  {
    forall i | 0 <= i < |r| && r[i] == op
      ensures 0 < i < |r| - 1 && r[i - 1] == ' ' && r[i + 1] == ' '
    {
      assert r[i] == t[i - 1];
    }
  }

  lemma SpacedPadded(r: string, op: char, t: string)
    requires r == [' ', op, ' '] + t && Spaced(t, op) && op != ' ' && (t == [] || t[0] != op)
    ensures Spaced(r, op)
  {
    forall i | 0 <= i < |r| && r[i] == op
      ensures 0 < i < |r| - 1 && r[i - 1] == ' ' && r[i + 1] == ' '
    {
      if i >= 3 {
        assert r[i] == t[i - 3];
      }
    }
  }

  /** After padding, every occurrence of the operator has a space on each side. */
  lemma {:induction false} PaddedOperatorHasSpaces(s: string, op: char)
    requires !IsSpace(op)
    ensures Spaced(PadOperator(s, op), op)
    decreases |s|, 1
  {
    if s != [] {
      var k := SpaceRun(s);
      if k < |s| && s[k] == op {
        PaddedAtOperator(s, op);
      } else {
        PaddedAtOther(s, op);
      }
    }
  }

  /** The case where a run of whitespace reaches the operator at the start of `s`. */
  lemma {:induction false} PaddedAtOperator(s: string, op: char)
    requires !IsSpace(op) && SpaceRun(s) < |s| && s[SpaceRun(s)] == op
    ensures Spaced(PadOperator(s, op), op)
    decreases |s|, 0
  {
    var rest := s[SpaceRun(s) + 1..];
    var t := rest[SpaceRun(rest)..];
    var pt := PadOperator(t, op);
    assert PadOperator(s, op) == [' ', op, ' '] + pt;
    PaddedOperatorHasSpaces(t, op);
    PadStartsWithOperatorSpaced(t, op);
    SpacedPadded(PadOperator(s, op), op, pt);
  }

  /** The case where `s` does not start with whitespace reaching the operator: its first character is kept. */
  lemma {:induction false} PaddedAtOther(s: string, op: char)
    requires !IsSpace(op) && s != [] && !(SpaceRun(s) < |s| && s[SpaceRun(s)] == op)
    ensures Spaced(PadOperator(s, op), op)
    decreases |s|, 0
  {
    var k := SpaceRun(s);
    var pt := PadOperator(s[1..], op);
    assert PadOperator(s, op) == [s[0]] + pt;
    assert s[0] != op by {
      if k == 0 {
        assert k < |s|;
      } else {
        assert IsSpace(s[0]);
      }
    }
    PaddedOperatorHasSpaces(s[1..], op);
    PadStartsWithOperatorSpaced(s[1..], op);
    SpacedCons(PadOperator(s, op), s[0], pt, op);
  }

  /** A padded string never starts with the operator itself. */
  lemma PadStartsWithOperatorSpaced(s: string, op: char)
    requires !IsSpace(op)
    ensures PadOperator(s, op) != [] ==> PadOperator(s, op)[0] != op
  {
    if s != [] {
      var k := SpaceRun(s);
      if !(k < |s| && s[k] == op) {
        assert k == 0 ==> s[0] != op;
      }
    }
  }

  /** Every occurrence of `op` in `r` is followed by a space, and preceded by one unless it comes first. */
  predicate SpacedAfter(r: string, op: char) {
    forall i :: 0 <= i < |r| && r[i] == op ==> i < |r| - 1 && r[i + 1] == ' ' && (0 < i ==> r[i - 1] == ' ')
  }

  /** Every occurrence of `op` in `r` has a space on each side that `r` has. */
  predicate SpacedInside(r: string, op: char) {
    forall i :: 0 <= i < |r| && r[i] == op ==> (0 < i ==> r[i - 1] == ' ') && (i < |r| - 1 ==> r[i + 1] == ' ')
  }

  lemma SpacedAfterSuffix(s: string, j: nat, op: char)
    requires j <= |s| && SpacedAfter(s, op)
    ensures SpacedAfter(s[j..], op)
  {
    forall i | 0 <= i < |s[j..]| && s[j..][i] == op
      ensures i < |s[j..]| - 1 && s[j..][i + 1] == ' ' && (0 < i ==> s[j..][i - 1] == ' ')
    {
      assert s[j + i] == op;
    }
  }

  /** A padded string is empty only when the input is, and starts with a space or with the input's first character. */
  lemma PadFirst(s: string, op: char)
    requires !IsSpace(op)
    ensures PadOperator(s, op) == [] <==> s == []
    ensures s != [] ==> PadOperator(s, op)[0] == ' ' || PadOperator(s, op)[0] == s[0]
  {
  }

  /** Padding one operator keeps every other operator followed (and, inside, preceded) by a space. */
  lemma {:induction false} PadKeepsSpacedAfter(s: string, op: char, other: char)
    requires !IsSpace(op) && !IsSpace(other) && op != other && SpacedAfter(s, other)
    ensures SpacedAfter(PadOperator(s, op), other)
    decreases |s|
  {
    if s != [] {
      var r := PadOperator(s, op);
      var k := SpaceRun(s);
      if k < |s| && s[k] == op {
        var rest := s[k + 1..];
        var m := SpaceRun(rest);
        var t := rest[m..];
        SpacedAfterSuffix(s, k + 1, other);
        SpacedAfterSuffix(rest, m, other);
        PadKeepsSpacedAfter(t, op, other);
        var pt := PadOperator(t, op);
        assert r == [' ', op, ' '] + pt;
        forall i | 0 <= i < |r| && r[i] == other
          ensures i < |r| - 1 && r[i + 1] == ' ' && (0 < i ==> r[i - 1] == ' ')
        {
          assert r[i] == pt[i - 3];
        }
      } else {
        var pt := PadOperator(s[1..], op);
        assert r == [s[0]] + pt;
        SpacedAfterSuffix(s, 1, other);
        PadKeepsSpacedAfter(s[1..], op, other);
        PadFirst(s[1..], op);
        forall i | 0 <= i < |r| && r[i] == other
          ensures i < |r| - 1 && r[i + 1] == ' ' && (0 < i ==> r[i - 1] == ' ')
        {
          if i == 0 {
            assert s[0] == other && s[1] == ' ';
          } else if i == 1 {
            assert pt[0] == other && s[1] == other;
          } else {
            assert r[i] == pt[i - 1];
          }
        }
      }
    }
  }

  /** Padding one operator keeps every other operator spaced on both sides. */
  lemma PadKeepsSpaced(s: string, op: char, other: char)
    requires !IsSpace(op) && !IsSpace(other) && op != other && Spaced(s, other)
    ensures Spaced(PadOperator(s, op), other)
  {
    PadKeepsSpacedAfter(s, op, other);
    PadFirst(s, op);
  }

  /** One step of the padding, as the definition takes it. */
  lemma PadUnfold(s: string, op: char)
    requires !IsSpace(op) && s != []
    ensures var k := SpaceRun(s);
      k < |s| && s[k] == op ==>
        PadOperator(s, op) == [' ', op, ' '] + PadOperator(s[k + 1..][SpaceRun(s[k + 1..])..], op)
    ensures var k := SpaceRun(s);
      !(k < |s| && s[k] == op) ==> PadOperator(s, op) == [s[0]] + PadOperator(s[1..], op)
  {
  }

  /** Padding adds only spaces and the operator itself. */
  lemma {:induction false} PadKeepsOut(s: string, op: char, c: char)
    requires !IsSpace(op) && c != op && c != ' ' && c !in s
    ensures c !in PadOperator(s, op)
    decreases |s|
  {
    if s != [] {
      PadUnfold(s, op);
      var k := SpaceRun(s);
      if k < |s| && s[k] == op {
        var rest := s[k + 1..];
        var t := rest[SpaceRun(rest)..];
        assert t == s[k + 1 + SpaceRun(rest)..];
        PadKeepsOut(t, op, c);
      } else {
        PadKeepsOut(s[1..], op, c);
      }
    }
  }

  /** Stripping cuts whitespace from the ends only: no character appears, and spacing inside is kept. */
  lemma {:induction false} StripKeeps(s: string, op: char, c: char)
    requires SpacedInside(s, op) && c !in s
    ensures SpacedInside(Strip(s), op) && c !in Strip(s)
    decreases |s|
  {
    if s != [] && IsSpace(s[0]) {
      var t := s[1..];
      assert forall i :: 0 <= i < |t| ==> t[i] == s[i + 1];
      StripKeeps(t, op, c);
    } else if s != [] && IsSpace(s[|s| - 1]) {
      var t := s[..|s| - 1];
      assert forall i :: 0 <= i < |t| ==> t[i] == s[i];
      StripKeeps(t, op, c);
    }
  }

  /**
   * `clean_latex`: whitespace collapsed, comment cut, `=`, `+` and `-` padded with single spaces, stripped.
   * No comment survives, and each of the three operators has a space on each side that the result has.
   */
  method CleanLatex(latex0: string) returns (latex: string)
    ensures latex == Strip(PadOperator(PadOperator(PadOperator(DropComment(CollapseSpaces(latex0)), '='), '+'), '-'))
    ensures latex != [] ==> !IsSpace(latex[0]) && !IsSpace(latex[|latex| - 1])
    ensures '%' !in latex
    ensures SpacedInside(latex, '=') && SpacedInside(latex, '+') && SpacedInside(latex, '-')
  {
    latex := CollapseSpaces(latex0);
    latex := DropComment(latex);
    latex := PadOperator(latex, '=');
    latex := PadOperator(latex, '+');
    latex := PadOperator(latex, '-');
    CleanLatexSpaced(DropComment(CollapseSpaces(latex0)));
    latex := Strip(latex);
  }

  /** The padded text keeps out `%` and has each operator spaced; stripping keeps both. */
  lemma CleanLatexSpaced(s: string)
    requires '%' !in s
    ensures var r := Strip(PadOperator(PadOperator(PadOperator(s, '='), '+'), '-'));
      '%' !in r && SpacedInside(r, '=') && SpacedInside(r, '+') && SpacedInside(r, '-')
  {
    var p1 := PadOperator(s, '=');
    var p2 := PadOperator(p1, '+');
    var p3 := PadOperator(p2, '-');
    PadKeepsOut(s, '=', '%');
    PadKeepsOut(p1, '+', '%');
    PadKeepsOut(p2, '-', '%');
    PaddedOperatorHasSpaces(s, '=');
    PadKeepsSpaced(p1, '+', '=');
    PadKeepsSpaced(p2, '-', '=');
    PaddedOperatorHasSpaces(p1, '+');
    PadKeepsSpaced(p2, '-', '+');
    PaddedOperatorHasSpaces(p2, '-');
    StripKeeps(p3, '=', '%');
    StripKeeps(p3, '+', '%');
    StripKeeps(p3, '-', '%');
  }
}
