/** What a whole run of opf_execute guarantees, stated on `RunSpec` (which
    `OpfExecute` is proved to agree with). */
module RunProperties {
  import opened Wrappers
  import opened AlgCodes
  import opened Blocks
  import opened Expand
  import opened Tables
  import opened PwlPatch
  import opened OpfModel
  import opened PostSolve
  import opened Execute

  /** The output of the backend the options select. */
  function Chosen(dc: bool, alg: int, env: Collaborators): SolverOutput
    requires RouteFor(dc, alg, env.ipoptAvailable).Solve?
  {
    env.solve(RouteFor(dc, alg, env.ipoptAvailable).backend)
  }

  /** `raw` was replaced by the relocation of `dg`/`g` (lines 117-120). */
  predicate Relocated(dc: bool, rawDer: bool, out: SolverOutput) {
    out.success && !dc && rawDer && out.results.legacy.Some?
  }

  /** When no backend runs (an AC code other than 0, 560, 565 and 580, or
      580 without `pyipopt`), line 99 reads the unbound `raw`: the run
      raises, whatever the rest of the input. The deprecated codes 100..260
      are among these codes. */
  lemma NoBackendRaises(om: Om, dc: bool, alg: int, rawDer: bool, env: Collaborators)
    requires Fits(om, dc, alg, env)
    requires !dc && alg != 0 && alg != 560 && alg != 565 && (alg != 580 || !env.ipoptAvailable)
    ensures RunSpec(om, dc, alg, rawDer, env) == RunRaised(UnboundLocal)
  {
    RouteTable(dc, alg, env.ipoptAvailable);
  }

  /** A run with a backend raises exactly when the stamp of line 100
      raises, or when the PWL patch needs an `xr` that `raw` lacks. */
  lemma RaisesOnlyAsStated(om: Om, dc: bool, alg: int, rawDer: bool, env: Collaborators)
    requires Fits(om, dc, alg, env) && RouteFor(dc, alg, env.ipoptAvailable).Solve?
    ensures var out := Chosen(dc, alg, env);
      var stamp := StampOutput(out.raw.output, ResolvedAlg(dc, alg));
      RunSpec(om, dc, alg, rawDer, env).RunRaised? <==>
        stamp.Failure? ||
        (PwlApplies(|om.pwl1|, ResolvedAlg(dc, alg)) && (out.raw.xr.None? || Relocated(dc, rawDer, out)))
  {
  }

  /** After an AC solve whose `dg`/`g` are relocated, the PWL patch finds
      no `xr` in the replaced `raw` and raises KeyError. */
  lemma RelocationBreaksPwlPatch(om: Om, dc: bool, alg: int, rawDer: bool, env: Collaborators)
    requires Fits(om, dc, alg, env) && RouteFor(dc, alg, env.ipoptAvailable).Solve?
    requires StampOutput(Chosen(dc, alg, env).raw.output, ResolvedAlg(dc, alg)).Success?
    requires Relocated(dc, rawDer, Chosen(dc, alg, env)) && PwlApplies(|om.pwl1|, ResolvedAlg(dc, alg))
    ensures RunSpec(om, dc, alg, rawDer, env) == RunRaised(KeyError("xr"))
  {
    LegacyRelocationDropsRaw(Chosen(dc, alg, env).results, Chosen(dc, alg, env).raw.(output := Some(StampOutput(Chosen(dc, alg, env).raw.output, ResolvedAlg(dc, alg)).value)), env.consfcn, env.costfcn);
  }

  /** Unless `raw` was replaced, a returned `raw` carries the algorithm
      code: its `output` is traced, and an output the solver left untraced
      holds the code in force (the raw OPF_ALG in DC mode, the resolved one
      in AC mode). */
  lemma StampRecorded(om: Om, dc: bool, alg: int, rawDer: bool, env: Collaborators)
    requires Fits(om, dc, alg, env) && RunSpec(om, dc, alg, rawDer, env).RunReturned?
    requires !Relocated(dc, rawDer, Chosen(dc, alg, env))
    ensures var raw := RunSpec(om, dc, alg, rawDer, env).raw;
      raw.output.Some? && !Untraced(raw.output.value) &&
      (Untraced(Chosen(dc, alg, env).raw.output.value) ==> raw.output.value.alg == Some(AlgCode(ResolvedAlg(dc, alg))))
  {
  }

  /** AC mode with OPF_ALG = 0: MIPS runs under code 560; an untraced
      output is stamped with 560. */
  lemma AcDefaultRunsPips(om: Om, rawDer: bool, env: Collaborators)
    requires Fits(om, false, 0, env) && RunSpec(om, false, 0, rawDer, env).RunReturned?
    requires !Relocated(false, rawDer, Chosen(false, 0, env))
    requires Untraced(Chosen(false, 0, env).raw.output.value)
    ensures RouteFor(false, 0, env.ipoptAvailable) == Solve(Pips)
    ensures RunSpec(om, false, 0, rawDer, env).raw.output.value.alg == Some(AlgCode(560))
  {
    ResolveAcKeeps(0);
    StampRecorded(om, false, 0, rawDer, env);
  }

  /** After a successful AC solve with no capability-curve multipliers,
      every generator's VG in the returned results is the solved VM of its
      bus, and the bus table is the solver's. */
  lemma AcSuccessVoltages(om: Om, alg: int, rawDer: bool, env: Collaborators)
    requires Fits(om, false, alg, env) && RunSpec(om, false, alg, rawDer, env).RunReturned?
    requires RunSpec(om, false, alg, rawDer, env).success
    requires "PQh" in om.ll && "PQl" in om.ll && !PQActive(om.ll)
    ensures var r := RunSpec(om, false, alg, rawDer, env).results;
      r.bus == Chosen(false, alg, env).results.bus &&
      GenBusesValid(r.gen, r.bus) &&
      forall i :: 0 <= i < |r.gen| ==> r.gen[i][VG] == r.bus[BusRowOf(r.gen, r.bus, i)][VM]
  {
    CorrectResultsVoltages(om, Chosen(false, alg, env).results, env.updateMuPQ);
  }

  /** On success `dg`/`g` are gone from the returned results and the
      angle multipliers are the only change to `branch`; on failure the
      solver's `dg`, `g`, `gen` and `branch` are returned as they were. */
  lemma ResultsTables(om: Om, dc: bool, alg: int, rawDer: bool, env: Collaborators)
    requires Fits(om, dc, alg, env) && RunSpec(om, dc, alg, rawDer, env).RunReturned?
    ensures var run := RunSpec(om, dc, alg, rawDer, env);
      var d := Chosen(dc, alg, env).results;
      run.success == Chosen(dc, alg, env).success &&
      run.results.bus == d.bus &&
      (run.success ==> run.results.legacy.None? && (dc ==> run.results.gen == d.gen)) &&
      (!run.success ==> run.results.legacy == d.legacy && run.results.gen == d.gen && run.results.branch == d.branch) &&
      SameShape(run.results.branch, d.branch) &&
      (forall r, col ::
        && 0 <= r < |d.branch| && 0 <= col < |d.branch[r]|
        && ((col != MU_ANGMIN && col != MU_ANGMAX) || r !in Selected(om.iang, |d.branch|))
        ==> run.results.branch[r][col] == d.branch[r][col])
  {
    var out := Chosen(dc, alg, env);
    if out.success {
      CorrectResultsFrame(om, dc, out.results, env.updateMuPQ);
    }
  }

  /** The block maps of a returned run are the expansion of the solver's
      own `results`: the corrections and the PWL patch leave them alone. */
  lemma RunBlocks(om: Om, dc: bool, alg: int, rawDer: bool, env: Collaborators)
    requires Fits(om, dc, alg, env) && RunSpec(om, dc, alg, rawDer, env).RunReturned?
    ensures var r := RunSpec(om, dc, alg, rawDer, env).results;
      var e := Expanded(om, dc, Chosen(dc, alg, env).results, env.computeCost);
      r.varBlocks == e.varBlocks && r.linBlocks == e.linBlocks &&
      r.nlnBlocks == e.nlnBlocks && r.costBlocks == e.costBlocks
  {
    var out := Chosen(dc, alg, env);
    if out.success {
      CorrectResultsFrame(om, dc, out.results, env.updateMuPQ);
    }
  }

  /** The variable blocks of a returned run, when the solver supplied none:
      `results['var']` exists iff the variable order is non-empty; its keys
      are the names of positive width; each entry is the block's slice of
      the solver's `x` and multipliers, before the PWL patch. */
  lemma VarBlocksOfRun(om: Om, dc: bool, alg: int, rawDer: bool, env: Collaborators)
    requires Fits(om, dc, alg, env) && RunSpec(om, dc, alg, rawDer, env).RunReturned?
    requires Chosen(dc, alg, env).results.varBlocks.None?
    ensures var r := RunSpec(om, dc, alg, rawDer, env).results;
      var d := Chosen(dc, alg, env).results;
      (r.varBlocks.Some? <==> om.varOrder != []) &&
      (r.varBlocks.Some? ==>
        r.varBlocks.value.muL.Keys == r.varBlocks.value.val.Keys &&
        r.varBlocks.value.muU.Keys == r.varBlocks.value.val.Keys &&
        forall name ::
          (name in r.varBlocks.value.val <==> name in om.varOrder && om.vv[name].n > 0) &&
          (name in r.varBlocks.value.val ==>
            name in r.varBlocks.value.muL && name in r.varBlocks.value.muU &&
            r.varBlocks.value.val[name] == Slice(d.x, om.vv[name]) &&
            r.varBlocks.value.muL[name] == Slice(d.mu.varL, om.vv[name]) &&
            r.varBlocks.value.muU[name] == Slice(d.mu.varU, om.vv[name])))
  {
    RunBlocks(om, dc, alg, rawDer, env);
  }

  /** The constraint and cost blocks of a returned run, when the solver
      supplied none: `lin` and `cost` exist iff their orders are non-empty,
      `nln` iff the run is AC and its order is non-empty; each holds
      exactly the names of positive width, with the blocks' multiplier
      slices or the per-name costs at the solver's `x`. */
  lemma ConstraintBlocksOfRun(om: Om, dc: bool, alg: int, rawDer: bool, env: Collaborators)
    requires Fits(om, dc, alg, env) && RunSpec(om, dc, alg, rawDer, env).RunReturned?
    requires var d := Chosen(dc, alg, env).results; d.linBlocks.None? && d.nlnBlocks.None? && d.costBlocks.None?
    ensures var r := RunSpec(om, dc, alg, rawDer, env).results;
      var d := Chosen(dc, alg, env).results;
      (r.linBlocks.Some? <==> om.linOrder != []) &&
      (r.nlnBlocks.Some? <==> !dc && om.nlnOrder != []) &&
      (r.costBlocks.Some? <==> om.costOrder != []) &&
      (r.linBlocks.Some? ==>
        r.linBlocks.value.u.Keys == r.linBlocks.value.l.Keys &&
        forall name ::
          (name in r.linBlocks.value.l <==> name in om.linOrder && om.ll[name].n > 0) &&
          (name in r.linBlocks.value.l ==>
            name in r.linBlocks.value.u &&
            r.linBlocks.value.l[name] == Slice(d.mu.linL, om.ll[name]) &&
            r.linBlocks.value.u[name] == Slice(d.mu.linU, om.ll[name]))) &&
      (r.nlnBlocks.Some? ==>
        r.nlnBlocks.value.u.Keys == r.nlnBlocks.value.l.Keys &&
        forall name ::
          (name in r.nlnBlocks.value.l <==> name in om.nlnOrder && om.nn[name].n > 0) &&
          (name in r.nlnBlocks.value.l ==>
            name in r.nlnBlocks.value.u &&
            r.nlnBlocks.value.l[name] == Slice(d.mu.nlnL, om.nn[name]) &&
            r.nlnBlocks.value.u[name] == Slice(d.mu.nlnU, om.nn[name]))) &&
      (r.costBlocks.Some? ==>
        forall name ::
          (name in r.costBlocks.value <==> name in om.costOrder && om.cc[name].n > 0) &&
          (name in r.costBlocks.value ==> r.costBlocks.value[name] == env.computeCost(d.x, name)))
  {
    RunBlocks(om, dc, alg, rawDer, env);
  }

  /** The returned `x` is the solver's, with `len(pwl1)` zeros spliced in
      at the split point when the patch applies; with no converted cost,
      `x` and (unless `raw` was replaced) `xr` are the solver's. */
  lemma PwlPatchOfRun(om: Om, dc: bool, alg: int, rawDer: bool, env: Collaborators)
    requires Fits(om, dc, alg, env) && RunSpec(om, dc, alg, rawDer, env).RunReturned?
    ensures var run := RunSpec(om, dc, alg, rawDer, env);
      var out := Chosen(dc, alg, env);
      (PwlApplies(|om.pwl1|, ResolvedAlg(dc, alg)) ==>
        run.results.x == InsertZeros(out.results.x, SplitPoint(dc, om.vv), |om.pwl1|) &&
        out.raw.xr.Some? && run.raw.xr == Some(InsertZeros(out.raw.xr.value, SplitPoint(dc, om.vv), |om.pwl1|))) &&
      (!PwlApplies(|om.pwl1|, ResolvedAlg(dc, alg)) ==> run.results.x == out.results.x) &&
      (om.pwl1 == [] && !Relocated(dc, rawDer, out) ==> run.raw.xr == out.raw.xr)
  {
    var out := Chosen(dc, alg, env);
    if out.success {
      CorrectResultsFrame(om, dc, out.results, env.updateMuPQ);
    }
  }

  /** The derivative keys of a returned `raw` after a failed solve: four
      empty arrays in AC mode with RETURN_RAW_DER, the solver's own keys
      otherwise. */
  lemma FailureDerivatives(om: Om, dc: bool, alg: int, rawDer: bool, env: Collaborators)
    requires Fits(om, dc, alg, env) && RunSpec(om, dc, alg, rawDer, env).RunReturned?
    requires !RunSpec(om, dc, alg, rawDer, env).success
    ensures var raw := RunSpec(om, dc, alg, rawDer, env).raw;
      var out := Chosen(dc, alg, env);
      (!dc && rawDer ==> raw.g == Some([]) && raw.dg == Some([]) && raw.df == Some([]) && raw.d2f == Some([])) &&
      (dc || !rawDer ==> raw.g == out.raw.g && raw.dg == out.raw.dg && raw.df == out.raw.df && raw.d2f == out.raw.d2f)
  {
  }
}
