/** `opf_execute(om, ppopt)`: dispatch to a solver backend, post-solve
    corrections, block expansion and the PWL dimension patch. `RunSpec`
    states a whole run on values; the method `OpfExecute` performs it on the
    dicts and is proved to agree with it; the lemmas state what a run
    guarantees. */
module Execute {
  import opened Wrappers
  import opened PyBits
  import opened AlgCodes
  import opened Blocks
  import opened Expand
  import opened Tables
  import opened PwlPatch
  import opened OpfModel
  import opened PostSolve
  import opened OpfObjects

  /** What the expansion of lines 153-187 needs: every ordered name is
      registered, and every non-empty block lies inside the vectors it is
      sliced from (the nonlinear space is read only in AC mode). */
  predicate ExpansionDefined(om: Om, dc: bool, d: ResultsData) {
    InRange(om.varOrder, om.vv, |d.x|) &&
    InRange(om.varOrder, om.vv, |d.mu.varL|) && InRange(om.varOrder, om.vv, |d.mu.varU|) &&
    InRange(om.linOrder, om.ll, |d.mu.linL|) && InRange(om.linOrder, om.ll, |d.mu.linU|) &&
    (!dc ==> InRange(om.nlnOrder, om.nn, |d.mu.nlnL|) && InRange(om.nlnOrder, om.nn, |d.mu.nlnU|)) &&
    (forall name :: name in om.costOrder ==> name in om.cc)
  }

  /** Lines 153-187 on `results`: each space with a non-empty order gets
      its map of per-name slices (costs: per-name `compute_cost`); the
      nonlinear space only in AC mode. */
  function Expanded(om: Om, dc: bool, d: ResultsData, computeCost: (seq<real>, string) -> real): ResultsData
    requires ExpansionDefined(om, dc, d)
  {
    d.(varBlocks :=
         if om.varOrder == [] then d.varBlocks
         else Some(VarBlocks(BlockSlices(om.varOrder, om.vv, d.x), BlockSlices(om.varOrder, om.vv, d.mu.varL),
                             BlockSlices(om.varOrder, om.vv, d.mu.varU))),
       linBlocks :=
         if om.linOrder == [] then d.linBlocks
         else Some(MuBlocks(BlockSlices(om.linOrder, om.ll, d.mu.linL), BlockSlices(om.linOrder, om.ll, d.mu.linU))),
       nlnBlocks :=
         if dc || om.nlnOrder == [] then d.nlnBlocks
         else Some(MuBlocks(BlockSlices(om.nlnOrder, om.nn, d.mu.nlnL), BlockSlices(om.nlnOrder, om.nn, d.mu.nlnU))),
       costBlocks :=
         if om.costOrder == [] then d.costBlocks
         else Some(CostTerms(om.costOrder, om.cc, d.x, computeCost)))
  }

  /** What a backend's output must satisfy for the rest of opf_execute to
      index it without error, given the code `alg` in force. */
  predicate OutputFits(om: Om, dc: bool, alg: int, out: SolverOutput) {
    (out.success ==> CorrectionsDefined(om, dc, out.results)) &&
    ExpansionDefined(om, dc, out.results) &&
    (PwlApplies(|om.pwl1|, alg) ==> (if dc then "Pg" else "Qg") in om.vv)
  }

  /** The output of the backend the options select fits. */
  predicate Fits(om: Om, dc: bool, alg: int, env: Collaborators) {
    var route := RouteFor(dc, alg, env.ipoptAvailable);
    route.Solve? ==> OutputFits(om, dc, ResolvedAlg(dc, alg), env.solve(route.backend))
  }

  /** The outcome of a run on values: the returned triple, or the
      exception raised. */
  datatype Run = RunReturned(results: ResultsData, success: bool, raw: RawData) | RunRaised(error: PyError)

  /** Lines 102-203 once the stamp has succeeded: corrections or failure
      derivatives, expansion and the PWL patch, on the backend's output
      `out` with `raw0` the stamped `raw`. */
  function Finish(om: Om, dc: bool, a: int, rawDer: bool, env: Collaborators, out: SolverOutput, raw0: RawData): Run
    requires OutputFits(om, dc, a, out)
  {
    var res1 := if out.success then CorrectResults(om, dc, out.results, env.updateMuPQ) else out.results;
    var raw1 :=
      if out.success then RawAfterSuccess(dc, rawDer, out.results, raw0, env.consfcn, env.costfcn)
      else RawAfterFailure(dc, rawDer, raw0);
    var res2 := Expanded(om, dc, res1, env.computeCost);
    if !PwlApplies(|om.pwl1|, a) then RunReturned(res2, out.success, raw1)
    else if raw1.xr.None? then RunRaised(KeyError("xr"))
    else
      var nx := SplitPoint(dc, om.vv);
      var k := |om.pwl1|;
      RunReturned(res2.(x := InsertZeros(res2.x, nx, k)), out.success, raw1.(xr := Some(InsertZeros(raw1.xr.value, nx, k))))
  }

  /** A whole run of opf_execute with PF_DC = `dc`, OPF_ALG = `alg` and
      RETURN_RAW_DER = `rawDer`. */
  function RunSpec(om: Om, dc: bool, alg: int, rawDer: bool, env: Collaborators): Run
    requires Fits(om, dc, alg, env)
  {
    var route := RouteFor(dc, alg, env.ipoptAvailable);
    if !route.Solve? then RunRaised(UnboundLocal)
    else
      var a := ResolvedAlg(dc, alg);
      var out := env.solve(route.backend);
      match StampOutput(out.raw.output, a)
      case Failure(e) => RunRaised(e)
      case Success(o) => Finish(om, dc, a, rawDer, env, out, out.raw.(output := Some(o)))
  }

  /** What `OpfExecute` returns: the triple, with the dicts as objects, or
      the exception raised. */
  datatype Outcome = Returned(results: Results, success: bool, raw: Raw) | Raised(error: PyError)

  /** Lines 61-97 without the backend call: the code in force and the
      dispatch decision. In AC mode OPF_ALG_POLY receives the resolved
      code; nothing else of the options changes. */
  method Dispatch(opt: Options, ipoptAvailable: bool) returns (route: Route, alg: int)
    modifies opt
    ensures route == RouteFor(old(opt.pfDc), old(opt.opfAlg), ipoptAvailable)
    ensures alg == ResolvedAlg(old(opt.pfDc), old(opt.opfAlg))
    ensures opt.pfDc == old(opt.pfDc) && opt.opfAlg == old(opt.opfAlg) && opt.returnRawDer == old(opt.returnRawDer)
    ensures opt.opfAlgPoly == if old(opt.pfDc) then old(opt.opfAlgPoly) else ResolveAc(old(opt.opfAlg))
  {
    alg := opt.opfAlg;
    if opt.pfDc {
      route := Solve(DcOpf);
    } else {
      if alg == 0 {
        alg := 560;
      }
      if ChainedEqOr(alg, 100, 200) {
        alg := 300;
      } else if ChainedEqOr(alg, 120, 220) {
        alg := 320;
      } else if ChainedEqOr(alg, 140, 240) {
        alg := 340;
      } else if ChainedEqOr(alg, 160, 260) {
        alg := 360;
      }
      opt.opfAlgPoly := alg;
      if alg == 560 || alg == 565 {
        route := Solve(Pips);
      } else if alg == 580 {
        route := if ipoptAvailable then Solve(Ipopt) else IpoptMissing;
      } else {
        route := InvalidAlg;
      }
    }
  }

  /** Lines 115-133, after a successful AC solve with RETURN_RAW_DER:
      returns the `raw` dict in force afterwards, a fresh one when `dg`
      and `g` are relocated from `results`. */
  method RawDerivatives(results: Results, raw: Raw, env: Collaborators) returns (raw': Raw)
    modifies raw
    ensures raw' == raw || fresh(raw')
    ensures raw'.Data() == RawAfterSuccess(false, true, results.Data(), old(raw.Data()), env.consfcn, env.costfcn)
  {
    raw' := raw;
    if results.legacy.Some? {
      raw' := new Raw(EmptyRaw);
      raw'.SetLegacyDerivatives(results.legacy.value);
    }
    if raw'.dg.None? {
      raw'.SetConstraintDerivatives(env.consfcn(results.x));
    }
    raw'.SetCostDerivatives(env.costfcn(results.x));
  }

  /** Lines 102-151: the corrections of a successful solve, or the empty
      derivatives of a failed one. Returns the `raw` dict in force
      afterwards. */
  method PostSolveStep(om: Om, dc: bool, rawDer: bool, success: bool, results: Results, raw: Raw, env: Collaborators)
    returns (raw': Raw)
    requires success ==> CorrectionsDefined(om, dc, results.Data())
    modifies results, raw
    ensures raw' == raw || fresh(raw')
    ensures results.Data() ==
      if success then CorrectResults(om, dc, old(results.Data()), env.updateMuPQ) else old(results.Data())
    ensures raw'.Data() ==
      if success then RawAfterSuccess(dc, rawDer, old(results.Data()), old(raw.Data()), env.consfcn, env.costfcn)
      else RawAfterFailure(dc, rawDer, old(raw.Data()))
  {
    raw' := raw;
    if success {
      ghost var d := results.Data();
      if !dc {
        results.CopyBusVoltages();
        results.UpdateCapabilityMultipliers(om.ll, env.updateMuPQ);
        if rawDer {
          raw' := RawDerivatives(results, raw, env);
        }
      }
      if results.legacy.Some? {
        results.DropLegacyDerivatives();
      }
      results.WriteAngleMultipliers(om.ll, om.iang);
      assert results.Data() == CorrectResults(om, dc, d, env.updateMuPQ);
    } else if !dc && rawDer {
      raw.SetEmptyDerivatives();
    }
  }

  /** Lines 153-187 on the `results` object. */
  method ExpandStep(om: Om, dc: bool, results: Results, computeCost: (seq<real>, string) -> real)
    requires ExpansionDefined(om, dc, results.Data())
    modifies results
    ensures results.Data() == Expanded(om, dc, old(results.Data()), computeCost)
  {
    results.StoreVarBlocks(om.varOrder, om.vv);
    results.StoreLinBlocks(om.linOrder, om.ll);
    if !dc {
      results.StoreNlnBlocks(om.nlnOrder, om.nn);
    }
    results.StoreCostBlocks(om.costOrder, om.cc, computeCost);
  }

  /** Lines 102-203 on the objects of a run whose stamp succeeded; the
      returned `results` object is the one given, the `raw` one is the
      given one or a fresh one. */
  method FinishStep(om: Om, dc: bool, a: int, rawDer: bool, env: Collaborators, out: SolverOutput,
                    results: Results, raw: Raw) returns (outcome: Outcome)
    requires OutputFits(om, dc, a, out) && results.Data() == out.results
    modifies results, raw
    ensures match Finish(om, dc, a, rawDer, env, out, old(raw.Data()))
      case RunRaised(e) => outcome == Raised(e)
      case RunReturned(rd, s, wd) =>
        outcome.Returned? && outcome.results == results && (outcome.raw == raw || fresh(outcome.raw)) &&
        outcome.results.Data() == rd && outcome.success == s && outcome.raw.Data() == wd
  {
    var raw' := PostSolveStep(om, dc, rawDer, out.success, results, raw, env);
    ExpandStep(om, dc, results, env.computeCost);
    if |om.pwl1| > 0 && a != 545 && a != 550 {
      var nx := if dc then om.vv["Pg"].iN() else om.vv["Qg"].iN();
      var e := raw'.InsertPlaceholders(nx, |om.pwl1|);
      if e.Some? {
        outcome := Raised(e.value);
        return;
      }
      results.InsertPlaceholders(nx, |om.pwl1|);
    }
    outcome := Returned(results, out.success, raw');
  }

  /** Lines 46-205. Only OPF_ALG_POLY of the options changes, and only in
      AC mode, where it receives the resolved code; the outcome is the one
      `RunSpec` gives, with fresh `results` and `raw` objects. */
  method OpfExecute(om: Om, opt: Options, env: Collaborators) returns (outcome: Outcome)
    requires Fits(om, opt.pfDc, opt.opfAlg, env)
    modifies opt
    ensures opt.pfDc == old(opt.pfDc) && opt.opfAlg == old(opt.opfAlg) && opt.returnRawDer == old(opt.returnRawDer)
    ensures opt.opfAlgPoly == if old(opt.pfDc) then old(opt.opfAlgPoly) else ResolveAc(old(opt.opfAlg))
    ensures match RunSpec(om, old(opt.pfDc), old(opt.opfAlg), old(opt.returnRawDer), env)
      case RunRaised(e) => outcome == Raised(e)
      case RunReturned(rd, s, wd) =>
        outcome.Returned? && fresh(outcome.results) && fresh(outcome.raw) &&
        outcome.results.Data() == rd && outcome.success == s && outcome.raw.Data() == wd
  {
    var dc := opt.pfDc;
    var rawDer := opt.returnRawDer;
    var route, alg := Dispatch(opt, env.ipoptAvailable);
    if !route.Solve? {
      outcome := Raised(UnboundLocal);
      return;
    }

    var out := env.solve(route.backend);
    var results := new Results(out.results);
    var raw := new Raw(out.raw);
    var err := raw.StampAlgorithm(alg);
    if err.Some? {
      outcome := Raised(err.value);
      return;
    }
    outcome := FinishStep(om, dc, alg, rawDer, env, out, results, raw);
  }
}
