/** The values opf_execute works on: the OPF model object it reads, the
    `results` and `raw` dicts a solver backend returns, and the foreign
    numerical routines it calls, each reduced to what the function uses. */
module OpfModel {
  import opened Wrappers
  import opened Blocks
  import opened Expand
  import opened Tables
  import opened AlgCodes

  /** What `om` provides: the four index registries of `om.get_idx()`
      (variables, linear and nonlinear constraints, user costs), the
      ordered block names of each space, and the user data `iang` (rows of
      the branch table with angle limits) and `pwl1` (costs converted from
      piecewise-linear to polynomial form). */
  datatype Om = Om(
    vv: Registry, ll: Registry, nn: Registry, cc: Registry,
    varOrder: seq<string>, linOrder: seq<string>, nlnOrder: seq<string>, costOrder: seq<string>,
    iang: seq<int>, pwl1: seq<int>)

  /** `results['mu']`: lower and upper bound multipliers of the variable,
      linear-constraint and nonlinear-constraint spaces. */
  datatype Multipliers = Multipliers(
    varL: seq<real>, varU: seq<real>,
    linL: seq<real>, linU: seq<real>,
    nlnL: seq<real>, nlnU: seq<real>)

  /** `results['dg']` and `results['g']`, left by old MINOPF/TSPOPF versions. */
  datatype LegacyDerivs = LegacyDerivs(dg: Matrix, g: seq<real>)

  /** The `results` dict, key by key. The four block maps are absent until
      the expansion writes them. */
  datatype ResultsData = ResultsData(
    bus: Matrix, gen: Matrix, branch: Matrix,
    x: seq<real>, mu: Multipliers,
    legacy: Option<LegacyDerivs>,
    varBlocks: Option<VarBlocks>, linBlocks: Option<MuBlocks>,
    nlnBlocks: Option<MuBlocks>, costBlocks: Option<map<string, real>>)

  /** A value found under `raw['output']['alg']`: a number, or a sized
      value such as a string, whose length line 99 tests. */
  datatype AlgTag = AlgCode(code: int) | AlgText(text: string)

  /** `raw['output']`, reduced to its `alg` key. */
  datatype Output = Output(alg: Option<AlgTag>)

  /** The `raw` dict, key by key. */
  datatype RawData = RawData(
    output: Option<Output>, xr: Option<seq<real>>,
    g: Option<seq<real>>, dg: Option<Matrix>, df: Option<seq<real>>, d2f: Option<Matrix>)

  /** A raw dict with no keys (`raw = {}`). */
  const EmptyRaw := RawData(None, None, None, None, None, None)

  /** The exceptions opf_execute can raise on its own account. */
  datatype PyError =
    | UnboundLocal        // line 99 reads `raw` after no backend ran
    | KeyError(key: string)
    | TypeError           // `len` of an int at line 99

  /** What a backend returns: `(results, success, raw)`. */
  datatype SolverOutput = SolverOutput(results: ResultsData, success: bool, raw: RawData)

  /** `opf_consfcn` at the solved point (after `makeYbus` on the case):
      inequality and equality values and their Jacobians, the latter
      already transposed to one row per constraint. */
  datatype ConsEval = ConsEval(h: seq<real>, geq: seq<real>, dhT: Matrix, dgeqT: Matrix)

  /** `opf_costfcn` at the solved point: gradient and Hessian. */
  datatype CostEval = CostEval(df: seq<real>, d2f: Matrix)

  /** The routines opf_execute calls but does not define, as functions of
      what they are given; `ipoptAvailable` is whether `pyipopt` imports. */
  datatype Collaborators = Collaborators(
    solve: Backend -> SolverOutput,
    ipoptAvailable: bool,
    updateMuPQ: (Matrix, seq<real>, seq<real>) -> Matrix,
    consfcn: seq<real> -> ConsEval,
    costfcn: seq<real> -> CostEval,
    computeCost: (seq<real>, string) -> real)
}
