/**
 * The simulation set-up (backend/app/services/simulation_engine.py): which
 * variables become sliders, the range each one gets, the plot configuration
 * and which kind of initial data is computed. The numeric evaluation of the
 * expression (SymPy and NumPy) is outside the model; the variable records are
 * the analyser's.
 */
module SimulationEngine {
  import opened Wrappers
  import opened Text
  import opened EquationAnalyzer

  /** The variables that are not constants, in their original order. */
  function NonConstants(vars: seq<Variable>): (r: seq<Variable>)
    ensures |r| <= |vars|
    ensures forall v :: v in r <==> v in vars && v.kind != Constant
  {
    if vars == [] then []
    else (if vars[0].kind != Constant then [vars[0]] else []) + NonConstants(vars[1..])
  }

  /** Filtering keeps the order: the kept variables of `a + b` are those of `a`, then those of `b`. */
  lemma {:induction false} NonConstantsConcat(a: seq<Variable>, b: seq<Variable>)
    ensures NonConstants(a + b) == NonConstants(a) + NonConstants(b)
  {
    if a != [] {
      assert (a + b)[0] == a[0] && (a + b)[1..] == a[1..] + b;
      NonConstantsConcat(a[1..], b);
    } else {
      assert a + b == b;
    }
  }

  /** A list without constants is kept whole. */
  lemma {:induction false} NonConstantsNoConstant(vars: seq<Variable>)
    requires forall i :: 0 <= i < |vars| ==> vars[i].kind != Constant
    ensures NonConstants(vars) == vars
  {
    if vars != [] {
      NonConstantsNoConstant(vars[1..]);
    }
  }

  /**
   * `_select_key_variables`: at most three variables, none a constant, taken
   * from the front of the non-constant ones; fewer than three only when there
   * are fewer non-constant variables.
   */
  function SelectKeyVariables(vars: seq<Variable>): (r: seq<Variable>)
    ensures |r| <= 3
    ensures forall v :: v in r ==> v in vars && v.kind != Constant
    ensures |r| == Min(3, |NonConstants(vars)|) && r == NonConstants(vars)[..|r|]
  {
    var kept := NonConstants(vars);
    if |kept| <= 3 then kept else kept[..3]
  }

  /** Without constants, the first three variables (or all, when fewer) are selected. */
  lemma SelectWithoutConstants(vars: seq<Variable>)
    requires forall i :: 0 <= i < |vars| ==> vars[i].kind != Constant
    ensures SelectKeyVariables(vars) == vars[..Min(3, |vars|)]
  {
    NonConstantsNoConstant(vars);
  }

  /** The names whose range starts at zero; every other variable's range starts at -10. */
  const NonNegativeNames: set<string> := {"mass", "distance", "time", "r", "h", "t"}

  /** `_estimate_max_value`'s answers: a number, or two pi for angles. */
  datatype MaxValue = Fixed(value: int) | FullTurn

  /** The maximum table, keyed by lowercased name. Its entry "T" can never be looked up. */
  const MaxValues: map<string, MaxValue> := map[
    "mass" := Fixed(100), "m" := Fixed(100), "time" := Fixed(100), "t" := Fixed(100),
    "velocity" := Fixed(100), "v" := Fixed(100), "distance" := Fixed(100), "x" := Fixed(100),
    "y" := Fixed(100), "z" := Fixed(100), "angle" := FullTurn, "theta" := FullTurn,
    "temperature" := Fixed(500), "T" := Fixed(500)]

  /** The start of a variable's range: 0 for the listed names in any case, -10 otherwise. */
  function RangeMin(name: string): (m: int)
    ensures m == 0 <==> Lower(name) in NonNegativeNames
    ensures m == 0 || m == -10
  {
    if Lower(name) in NonNegativeNames then 0 else -10
  }

  /** The estimated end of a variable's range: the table's entry for the lowercased name, or 10. */
  function MaxEstimate(name: string): (m: MaxValue)
    ensures Lower(name) in MaxValues ==> m == MaxValues[Lower(name)]
    ensures Lower(name) !in MaxValues ==> m == Fixed(10)
  {
    if Lower(name) in MaxValues then MaxValues[Lower(name)] else Fixed(10)
  }

  /** Two pi lies above 6 and below 7, which is all the comparison below needs. */
  predicate Above(m: MaxValue, lo: int) {
    match m
    case Fixed(v) => v > lo
    case FullTurn => lo < 6
  }

  /**
   * Every estimated maximum lies above the start of the range, so the
   * "numerical stability" widening never happens.
   */
  lemma MaxAboveMin(name: string)
    ensures Above(MaxEstimate(name), RangeMin(name))
  {
    var lower := Lower(name);
    if lower in MaxValues {
      assert forall k :: k in MaxValues ==> MaxValues[k] == FullTurn || MaxValues[k].value >= 100;
    }
  }

  /** A variable's range (the step and the default are floating point and not modelled). */
  datatype Range = Range(min: int, max: MaxValue)

  /** The range `_compute_ranges` gives a name, after the widening that never fires. */
  function RangeOf(name: string): Range {
    var lo := RangeMin(name);
    var hi := MaxEstimate(name);
    MaxAboveMin(name);
    Range(lo, if Above(hi, lo) then hi else Fixed(lo + 10))
  }

  /** `_compute_ranges`: one entry per variable name, each starting at its `RangeMin` and ending at its estimate. */
  method ComputeRanges(vars: seq<Variable>) returns (ranges: map<string, Range>)
    ensures ranges.Keys == set v | v in vars :: v.name
    ensures forall n :: n in ranges ==> ranges[n].min == RangeMin(n) && ranges[n].max == MaxEstimate(n)
  {
    ranges := map[];
    for i := 0 to |vars|
      invariant ranges.Keys == set v | v in vars[..i] :: v.name
      invariant forall n :: n in ranges ==> ranges[n] == RangeOf(n)
    {
      var name := vars[i].name;
      var lo := if Lower(name) in NonNegativeNames then 0 else -10;
      var hi := MaxEstimate(name);
      MaxAboveMin(name);
      if !Above(hi, lo) {
        hi := Fixed(lo + 10);
      }
      ranges := ranges[name := Range(lo, hi)];
      assert vars[..i + 1] == vars[..i] + [vars[i]];
    }
    assert vars[..|vars|] == vars;
    forall n | n in ranges ensures ranges[n].max == MaxEstimate(n) {
      MaxAboveMin(n);
    }
  }

  /** The kind of plot. */
  datatype PlotType = Line | Heatmap | Surface3d

  datatype PlotConfig = PlotConfig(plotType: PlotType, title: string, xLabel: string, yLabel: string)

  /** An axis label: the description and the unit in parentheses, a missing unit printing as "None". */
  function AxisLabel(v: Variable): string {
    v.description + " (" + (if v.unit.Some? then v.unit.value else "None") + ")"
  }

  /** The plot title: a default without LaTeX, the LaTeX in dollars, cut to 50 characters and "..." when longer. */
  function PlotTitle(latex: string): (t: string)
    ensures latex == "" ==> t == "Equation Visualization"
    ensures latex != "" && |latex| <= 50 ==> t == "$" + latex + "$"
    ensures |latex| > 50 ==> t == "$" + latex[..50] + "...$" && |t| == 55
  {
    if latex == "" then "Equation Visualization"
    else if |latex| > 50 then "$" + latex[..50] + "...$"
    else "$" + latex + "$"
  }

  /**
   * `_create_plot_config` for a non-empty selection: a line plot for one
   * variable, a heatmap for two, a 3-D plot otherwise; the first variable on
   * the x axis, the second (if any) on the y axis.
   */
  function CreatePlotConfig(vars: seq<Variable>, latex: string): (p: PlotConfig)
    requires |vars| >= 1
    ensures p.plotType == Line <==> |vars| == 1
    ensures p.plotType == Heatmap <==> |vars| == 2
    ensures p.plotType == Surface3d <==> |vars| >= 3
    ensures p.xLabel == AxisLabel(vars[0])
    ensures |vars| == 1 ==> p.yLabel == "Output"
    ensures |vars| >= 2 ==> p.yLabel == AxisLabel(vars[1])
    ensures p.title == PlotTitle(latex)
  {
    var plotType := if |vars| == 1 then Line else if |vars| == 2 then Heatmap else Surface3d;
    var yLabel := if |vars| == 1 then "Output" else AxisLabel(vars[1]);
    PlotConfig(plotType, PlotTitle(latex), AxisLabel(vars[0]), yLabel)
  }

  /** Which grid the initial data is computed over (the values themselves are not modelled). */
  datatype InitialData = OneD(x: string) | TwoD(x: string, y: string)

  /** `_compute_initial_data`: 1-D over the only variable, otherwise 2-D over the first two. */
  function InitialDataFor(vars: seq<Variable>): (d: InitialData)
    requires |vars| >= 1
    ensures |vars| == 1 <==> d.OneD?
    ensures d.x == vars[0].name
    ensures d.TwoD? ==> d.y == vars[1].name
  {
    if |vars| == 1 then OneD(vars[0].name) else TwoD(vars[0].name, vars[1].name)
  }

  datatype Simulation = Simulation(variables: seq<Variable>, ranges: map<string, Range>, plot: PlotConfig,
                                   initial: InitialData, latex: string)

  /**
   * `create_simulation`: the failure reply when every variable is a constant
   * (or there is none), otherwise the selected variables with their ranges,
   * the plot configuration and the kind of initial data.
   */
  method CreateSimulation(vars: seq<Variable>, latex: string) returns (r: Result<Simulation, string>)
    ensures r.Err? <==> forall v :: v in vars ==> v.kind == Constant
    ensures r.Err? ==> r.error == "No manipulable variables found"
    ensures r.Ok? ==> (r.value.variables == SelectKeyVariables(vars) && 1 <= |r.value.variables| <= 3
      && r.value.ranges.Keys == (set v | v in r.value.variables :: v.name)
      && (forall n :: n in r.value.ranges ==> r.value.ranges[n] == Range(RangeMin(n), MaxEstimate(n)))
      && r.value.plot == CreatePlotConfig(r.value.variables, latex)
      && r.value.initial == InitialDataFor(r.value.variables) && r.value.latex == latex)
  {
    var selected := SelectKeyVariables(vars);
    if selected == [] {
      assert NonConstants(vars) == [];
      return Err("No manipulable variables found");
    }
    assert selected[0] in NonConstants(vars);
    var ranges := ComputeRanges(selected);
    var plot := CreatePlotConfig(selected, latex);
    r := Ok(Simulation(selected, ranges, plot, InitialDataFor(selected), latex));
  }
}
