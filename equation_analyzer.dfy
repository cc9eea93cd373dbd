/**
 * The equation analyser (backend/app/services/equation_analyzer.py): parsing
 * with one cleaned retry, one variable record per free symbol with its kind,
 * description and unit taken from fixed tables, the analysis result with its
 * parse-failure case and the basic explanation, and the derivation steps.
 *
 * SymPy is outside the model: a parsed expression is an `Expr` value (its
 * printed form, its free symbols and whether it holds derivatives or
 * integrals), and the LaTeX parser is the oracle `parse`.
 */
module EquationAnalyzer {
  import opened Wrappers
  import opened Text
  import LlmClient

  /** A parsed expression as far as the analyser looks at it. */
  datatype Expr = Expr(text: string, freeSymbols: seq<string>, hasDerivative: bool, hasIntegral: bool)

  /** `variable_type` */
  datatype VarKind = Independent | Dependent | Constant

  /** A variable record (`Variable`); its `domain` is always None and is not modelled. */
  datatype Variable = Variable(name: string, symbol: string, description: string, unit: Option<string>, kind: VarKind)

  /**
   * The names the analyser lists as constants. The fourth entry is the
   * two-character string U+00CF U+20AC, a mis-encoded pi.
   */
  const Constants: set<string> := {"c", "e", "pi", "\U{CF}\U{20AC}", "g", "h", "k", "G", "R", "epsilon", "mu", "sigma", "hbar"}

  /** `_is_likely_constant` as written: the lowercased symbol is one of the listed names. */
  predicate IsLikelyConstantAsWritten(symbol: string) {
    Lower(symbol) in Constants
  }

  /** The listed names "R" and U+00CF U+20AC are never recognised: their lowercased forms are not listed. */
  lemma ListedConstantsMissed()
    ensures "R" in Constants && !IsLikelyConstantAsWritten("R")
    ensures "\U{CF}\U{20AC}" in Constants && !IsLikelyConstantAsWritten("\U{CF}\U{20AC}")
  {
    assert Lower("R") == "r" by { assert Lower("R")[0] == LowerChar('R') == 'r'; }
    assert Lower("\U{CF}\U{20AC}") == "\U{EF}\U{20AC}" by {
      assert Lower("\U{CF}\U{20AC}")[0] == LowerChar('\U{CF}') == '\U{EF}';
      assert Lower("\U{CF}\U{20AC}")[1] == LowerChar('\U{20AC}') == '\U{20AC}';
    }
  }

  /** The listed "G" is recognised as written, but only through "g": the entry itself is never looked up. */
  lemma ListedGIsRedundant()
    ensures "G" in Constants && Lower("G") == "g" && IsLikelyConstantAsWritten("G")
  {
    assert Lower("G")[0] == LowerChar('G') == 'g';
  }

  /**
   * The evidently intended test: a symbol is a constant when it is one of the
   * listed names, or when its lowercased form is.
   */
  predicate IsLikelyConstant(symbol: string) {
    symbol in Constants || Lower(symbol) in Constants
  }

  /**
   * The corrected test recognises every listed name, agrees with the written
   * one wherever that one says yes, and still leaves "r" (a radius) out.
   */
  lemma ConstantsRecognised(symbol: string)
    ensures forall k :: k in Constants ==> IsLikelyConstant(k)
    ensures IsLikelyConstantAsWritten(symbol) ==> IsLikelyConstant(symbol)
    ensures IsLikelyConstant(symbol) <==> IsLikelyConstantAsWritten(symbol) || symbol in Constants
    ensures IsLikelyConstant("R") && !IsLikelyConstant("r")
  {
    assert Lower("r") == "r" by { assert Lower("r")[0] == LowerChar('r') == 'r'; }
  }

  /** The description table (`_generate_variable_description`). */
  const Descriptions: map<string, string> := map[
    "E" := "Energy", "F" := "Force", "m" := "Mass", "v" := "Velocity", "a" := "Acceleration",
    "t" := "Time", "x" := "Position", "y" := "Position", "z" := "Position", "r" := "Radius",
    "theta" := "Angle", "omega" := "Angular velocity", "alpha" := "Angular acceleration",
    "T" := "Temperature", "P" := "Pressure", "V" := "Volume", "n" := "Number", "c" := "Speed of light",
    "g" := "Gravitational acceleration", "h" := "Height", "k" := "Constant", "G" := "Gravitational constant"]

  /** The unit table (`_guess_unit`). */
  const Units: map<string, string> := map[
    "E" := "joules", "F" := "newtons", "m" := "kilograms", "v" := "meters per second",
    "a" := "meters per second squared", "t" := "seconds", "x" := "meters", "y" := "meters",
    "z" := "meters", "r" := "meters", "T" := "kelvin", "P" := "pascals", "V" := "cubic meters",
    "c" := "meters per second", "g" := "meters per second squared", "h" := "meters"]

  /** A symbol's description: the table's entry, or the symbol itself when it has none (the lookup is case-sensitive). */
  function Describe(symbol: string): (d: string)
    ensures symbol !in Descriptions ==> d == symbol
    ensures symbol in Descriptions ==> d == Descriptions[symbol]
  {
    if symbol in Descriptions then Descriptions[symbol] else symbol
  }

  /** A symbol's unit: the table's entry, or None. */
  function Unit(symbol: string): (u: Option<string>)
    ensures u.None? <==> symbol !in Units
    ensures u.Some? ==> u.value == Units[symbol]
  {
    if symbol in Units then Some(Units[symbol]) else None
  }

  /** Every symbol that has a unit also has a description of its own, different from the symbol. */
  lemma UnitsAreDescribed(symbol: string)
    requires Unit(symbol).Some?
    ensures symbol in Descriptions && Describe(symbol) != symbol
  {
    assert symbol in Units.Keys;
  }

  /** The record made for one free symbol. */
  function VariableOf(symbol: string): Variable {
    Variable(symbol, symbol, Describe(symbol), Unit(symbol), if IsLikelyConstant(symbol) then Constant else Independent)
  }

  /**
   * `extract_variables`: one record per free symbol, in the order the symbols
   * are visited, named after it and of kind constant exactly when the symbol is
   * a likely constant, independent otherwise.
   */
  method ExtractVariables(expr: Expr) returns (vars: seq<Variable>)
    ensures |vars| == |expr.freeSymbols|
    ensures forall i :: 0 <= i < |vars| ==>
      vars[i].name == expr.freeSymbols[i] && vars[i].symbol == expr.freeSymbols[i]
      && vars[i].description == Describe(expr.freeSymbols[i]) && vars[i].unit == Unit(expr.freeSymbols[i])
      && (vars[i].kind == Constant <==> IsLikelyConstant(expr.freeSymbols[i]))
      && vars[i].kind != Dependent
  {
    vars := [];
    for i := 0 to |expr.freeSymbols|
      invariant |vars| == i
      invariant forall j :: 0 <= j < i ==> vars[j] == VariableOf(expr.freeSymbols[j])
    {
      var sym := expr.freeSymbols[i];
      var kind := if IsLikelyConstant(sym) then Constant else Independent;
      vars := vars + [Variable(sym, sym, Describe(sym), Unit(sym), kind)];
    }
  }

  /** The environment markers the retry removes, in the order it removes them. */
  const EnvironmentMarkers: seq<string> := ["\\begin{equation}", "\\end{equation}", "\\begin{align}", "\\end{align}"]

  /** The text of the retry: the four markers removed in turn, then stripped. */
  function Cleaned(latex: string): string {
    Strip(RemoveAll(RemoveAll(RemoveAll(RemoveAll(latex, EnvironmentMarkers[0]), EnvironmentMarkers[1]),
                              EnvironmentMarkers[2]), EnvironmentMarkers[3]))
  }

  /**
   * `parse_to_sympy`: the parse of the text itself when it succeeds, otherwise
   * the parse of the cleaned text; None only when both fail.
   */
  function ParseToSympy(latex: string, parse: string -> Option<Expr>): (r: Option<Expr>)
    ensures parse(latex).Some? ==> r == parse(latex)
    ensures parse(latex).None? ==> r == parse(Cleaned(latex))
    ensures r.None? <==> parse(latex).None? && parse(Cleaned(latex)).None?
  {
    match parse(latex)
    case Some(e) => Some(e)
    case None => parse(Cleaned(latex))
  }

  /** The descriptions of a list of variables, in order. */
  function DescriptionsOf(vars: seq<Variable>): (r: seq<string>)
    ensures |r| == |vars| && forall i :: 0 <= i < |vars| ==> r[i] == vars[i].description
  {
    if vars == [] then [] else [vars[0].description] + DescriptionsOf(vars[1..])
  }

  /** `_generate_basic_explanation` */
  function BasicExplanation(expr: Expr, vars: seq<Variable>): string {
    var names := DescriptionsOf(vars);
    "This equation relates " + Join(", ", names) + ". "
      + (if |vars| == 2 then "It shows how " + names[0] + " depends on " + names[1] + "."
         else if |vars| > 2 then "It shows the relationship between these quantities."
         else "")
      + (if expr.hasDerivative then " The equation involves derivatives, indicating rates of change." else "")
      + (if expr.hasIntegral then " The equation involves integration, indicating accumulation or area." else "")
  }

  /** The basic explanation names every variable's description. */
  lemma BasicExplanationMentions(expr: Expr, vars: seq<Variable>, j: int)
    requires 0 <= j < |vars|
    ensures Contains(BasicExplanation(expr, vars), vars[j].description)
  {
    var names := DescriptionsOf(vars);
    var joined := Join(", ", names);
    var rest := BasicExplanation(expr, vars)[|"This equation relates " + joined|..];
    assert BasicExplanation(expr, vars) == "This equation relates " + joined + rest;
    LlmClient.JoinContainsPieces(", ", names, j);
    var i :| OccursAt(joined, names[j], i);
    LlmClient.OccursShift(joined, names[j], i, "This equation relates ", rest);
  }

  /** The analysis of an equation that parsed. */
  datatype Analysis = Analysis(latex: string, sympyText: string, variables: seq<Variable>,
                               explanation: string, context: string)

  /** The failure reply: the error message and the LaTeX echoed back. */
  datatype ParseFailure = ParseFailure(error: string, latex: string)

  /**
   * `analyze_equation`. `explainer` is the configured model client's answer:
   * None when no client is configured, an error when its call raised. Without
   * a parse the result is the failure reply; otherwise the explanation is the
   * model's, or the basic one when there is no client or it raised.
   */
  method AnalyzeEquation(latex: string, context: string, parse: string -> Option<Expr>,
                         explainer: Option<Result<string, string>>)
    returns (r: Result<Analysis, ParseFailure>)
    ensures r.Err? <==> ParseToSympy(latex, parse).None?
    ensures r.Err? ==> r.error == ParseFailure("Could not parse equation", latex)
    ensures r.Ok? ==> (r.value.latex == latex && r.value.context == context
      && r.value.sympyText == ParseToSympy(latex, parse).value.text
      && |r.value.variables| == |ParseToSympy(latex, parse).value.freeSymbols|)
    ensures r.Ok? ==> forall i :: 0 <= i < |r.value.variables| ==>
      r.value.variables[i] == VariableOf(ParseToSympy(latex, parse).value.freeSymbols[i])
    ensures r.Ok? && explainer.Some? && explainer.value.Ok? ==> r.value.explanation == explainer.value.value
    ensures r.Ok? && (explainer.None? || explainer.value.Err?) ==>
      r.value.explanation == BasicExplanation(ParseToSympy(latex, parse).value, r.value.variables)
  {
    var expr := ParseToSympy(latex, parse);
    if expr.None? {
      return Err(ParseFailure("Could not parse equation", latex));
    }
    var vars := ExtractVariables(expr.value);
    var explanation;
    if explainer.Some? && explainer.value.Ok? {
      explanation := explainer.value.value;
    } else {
      explanation := BasicExplanation(expr.value, vars);
    }
    r := Ok(Analysis(latex, expr.value.text, vars, explanation, context));
  }

  /** A derivation step (`DerivationStep`). */
  datatype Step = Step(number: nat, expression: string, explanation: string, justification: string)

  /**
   * `generate_steps` with `simplified` the simplifier's result: always the
   * starting equation as step 1, and step 2 only when simplifying changed it.
   */
  function GenerateSteps(expr: Expr, simplified: Expr): (steps: seq<Step>)
    ensures |steps| >= 1 && steps[0] == Step(1, expr.text, "Starting equation", "Given equation from the problem")
    ensures |steps| == 2 <==> simplified != expr
    ensures |steps| <= 2
    ensures |steps| == 2 ==> steps[1] == Step(2, simplified.text, "Simplified form", "Algebraic simplification")
    ensures forall i :: 0 <= i < |steps| ==> steps[i].number == i + 1
  {
    [Step(1, expr.text, "Starting equation", "Given equation from the problem")]
      + (if simplified != expr then [Step(2, simplified.text, "Simplified form", "Algebraic simplification")] else [])
  }
}
