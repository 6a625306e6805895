/** What opf_execute does to `results` and `raw` between the solver call and
    the block expansion (lines 99-151), as functions on the dict contents. */
module PostSolve {
  import opened Wrappers
  import opened Blocks
  import opened Tables
  import opened OpfModel

  /** `raw['output']` carries no usable trace of the algorithm: no `alg`
      key, or a sized value of length 0. */
  predicate Untraced(o: Output) {
    o.alg.None? || (o.alg.value.AlgText? && o.alg.value.text == "")
  }

  /** Lines 99-100. The test reads `raw['output']` only after checking the
      key, but the assignment then indexes it anyway, so a missing
      `output` raises KeyError; an `alg` that is an int makes `len` raise
      TypeError. Otherwise an untraced output gets the code and a traced
      one is kept. */
  function StampOutput(output: Option<Output>, alg: int): (r: Result<Output, PyError>)
    ensures r.Failure? <==> output.None? || (output.value.alg.Some? && output.value.alg.value.AlgCode?)
    ensures r.Failure? ==> r.error == (if output.None? then KeyError("output") else TypeError)
    ensures r.Success? ==> !Untraced(r.value)
    ensures r.Success? ==> r.value == (if Untraced(output.value) then Output(Some(AlgCode(alg))) else output.value)
  {
    match output
    case None => Failure(KeyError("output"))
    case Some(o) =>
      match o.alg
      case None => Success(Output(Some(AlgCode(alg))))
      case Some(AlgCode(_)) => Failure(TypeError)
      case Some(AlgText(s)) => if |s| == 0 then Success(Output(Some(AlgCode(alg)))) else Success(o)
  }

  /** A block of the linear-constraint space that is either empty or
      inside both multiplier vectors. */
  predicate LinBlockFits(b: Block, mu: Multipliers) {
    b.n > 0 ==> b.iN() <= |mu.linL| && b.iN() <= |mu.linU|
  }

  /** Lines 109-110: `l[i1:iN] - u[i1:iN]`, the net multiplier of a
      two-sided constraint block. */
  function BoundDiff(l: seq<real>, u: seq<real>, b: Block): (d: seq<real>)
    requires b.n > 0 ==> b.iN() <= |l| && b.iN() <= |u|
    ensures |d| == b.n
    ensures forall j :: 0 <= j < b.n ==> d[j] == l[b.i1 + j] - u[b.i1 + j]
  {
    seq(b.n, j requires 0 <= j < b.n => l[b.i1 + j] - u[b.i1 + j])
  }

  /** What lines 143-144 need: the `ang` block inside both multiplier
      vectors, one branch row per multiplier, rows that exist, and the
      multiplier columns present. */
  predicate AngleWriteDefined(branch: Matrix, iang: seq<int>, mu: Multipliers, ang: Block) {
    ang.iN() <= |mu.linL| && ang.iN() <= |mu.linU| && |iang| == ang.n &&
    ValidRows(iang, |branch|) && HasColumn(branch, MU_ANGMAX)
  }

  /** Lines 143-144: the per-degree lower and upper multipliers of the
      `ang` block go into columns MU_ANGMIN and MU_ANGMAX of rows `iang`. */
  function AngleWrite(branch: Matrix, iang: seq<int>, mu: Multipliers, ang: Block): Matrix
    requires AngleWriteDefined(branch, iang, mu, ang)
  {
    assert HasColumn(branch, MU_ANGMIN);
    var w := WriteColumn(branch, iang, MU_ANGMIN, PerDegree(Slice(mu.linL, ang)));
    WriteColumn(w, iang, MU_ANGMAX, PerDegree(Slice(mu.linU, ang)))
  }

  /** The angle write changes only the two multiplier columns of the rows
      in `iang`; with distinct rows (as `iang` is built), row `iang[j]`
      holds the `j`-th lower and upper `ang` multipliers times pi/180. */
  lemma AngleWriteFrame(branch: Matrix, iang: seq<int>, mu: Multipliers, ang: Block)
    requires AngleWriteDefined(branch, iang, mu, ang)
    ensures SameShape(AngleWrite(branch, iang, mu, ang), branch)
    ensures forall r, c ::
      && 0 <= r < |branch| && 0 <= c < |branch[r]|
      && ((c != MU_ANGMIN && c != MU_ANGMAX) || r !in Selected(iang, |branch|))
      ==> AngleWrite(branch, iang, mu, ang)[r][c] == branch[r][c]
    ensures DistinctRows(iang, |branch|) ==> forall j :: 0 <= j < |iang| ==>
      AngleWrite(branch, iang, mu, ang)[PyIndex(iang[j], |branch|)][MU_ANGMIN] == mu.linL[ang.i1 + j] * Pi / 180.0 &&
      AngleWrite(branch, iang, mu, ang)[PyIndex(iang[j], |branch|)][MU_ANGMAX] == mu.linU[ang.i1 + j] * Pi / 180.0
  {
    assert HasColumn(branch, MU_ANGMIN);
    var lo := PerDegree(Slice(mu.linL, ang));
    var hi := PerDegree(Slice(mu.linU, ang));
    var w := WriteColumn(branch, iang, MU_ANGMIN, lo);
    var w2 := WriteColumn(w, iang, MU_ANGMAX, hi);
    assert Selected(iang, |w|) == Selected(iang, |branch|);
    if DistinctRows(iang, |branch|) {
      forall j | 0 <= j < |iang|
        ensures w2[PyIndex(iang[j], |branch|)][MU_ANGMIN] == mu.linL[ang.i1 + j] * Pi / 180.0
        ensures w2[PyIndex(iang[j], |branch|)][MU_ANGMAX] == mu.linU[ang.i1 + j] * Pi / 180.0
      {
        assert LastWrite(iang, |branch|, j);
        assert LastWrite(iang, |w|, j);
        assert lo[j] == mu.linL[ang.i1 + j] * Pi / 180.0;
        assert hi[j] == mu.linU[ang.i1 + j] * Pi / 180.0;
      }
    }
  }

  /** The capability-curve blocks carry multipliers (line 108; `|` of two
      booleans is their disjunction). */
  predicate PQActive(ll: Registry)
    requires "PQh" in ll && "PQl" in ll
  {
    ll["PQh"].n > 0 || ll["PQl"].n > 0
  }

  /** What lines 102-144 need of a successful solve's `results`. */
  predicate CorrectionsDefined(om: Om, dc: bool, d: ResultsData) {
    "ang" in om.ll &&
    (om.ll["ang"].n > 0 ==> AngleWriteDefined(d.branch, om.iang, d.mu, om.ll["ang"])) &&
    (!dc ==>
      GenBusesValid(d.gen, d.bus) && "PQh" in om.ll && "PQl" in om.ll &&
      LinBlockFits(om.ll["PQh"], d.mu) && LinBlockFits(om.ll["PQl"], d.mu))
  }

  /** Lines 102-144 on `results` after a successful solve: in AC mode the
      voltage copy-back and the capability-curve update of `gen`; in both
      modes removal of `dg`/`g` and the angle multipliers in `branch`. */
  function CorrectResults(om: Om, dc: bool, d: ResultsData, updateMuPQ: (Matrix, seq<real>, seq<real>) -> Matrix): ResultsData
    requires CorrectionsDefined(om, dc, d)
  {
    var withV := if dc then d.gen else WithGenVoltages(d.gen, d.bus);
    var gen :=
      if !dc && PQActive(om.ll) then
        updateMuPQ(withV, BoundDiff(d.mu.linL, d.mu.linU, om.ll["PQh"]), BoundDiff(d.mu.linL, d.mu.linU, om.ll["PQl"]))
      else withV;
    var branch := if om.ll["ang"].n > 0 then AngleWrite(d.branch, om.iang, d.mu, om.ll["ang"]) else d.branch;
    d.(gen := gen, branch := branch, legacy := None)
  }

  /** The corrections leave the bus table, the solution and the multipliers
      alone, always drop `dg`/`g`, leave `gen` alone in DC mode, and change
      `branch` only where the angle write does. */
  lemma CorrectResultsFrame(om: Om, dc: bool, d: ResultsData, updateMuPQ: (Matrix, seq<real>, seq<real>) -> Matrix)
    requires CorrectionsDefined(om, dc, d)
    ensures var c := CorrectResults(om, dc, d, updateMuPQ);
      c.bus == d.bus && c.x == d.x && c.mu == d.mu && c.legacy.None? &&
      c.varBlocks == d.varBlocks && c.linBlocks == d.linBlocks &&
      c.nlnBlocks == d.nlnBlocks && c.costBlocks == d.costBlocks &&
      (dc ==> c.gen == d.gen) &&
      (om.ll["ang"].n == 0 ==> c.branch == d.branch) &&
      SameShape(c.branch, d.branch) &&
      (forall r, col ::
        && 0 <= r < |d.branch| && 0 <= col < |d.branch[r]|
        && ((col != MU_ANGMIN && col != MU_ANGMAX) || r !in Selected(om.iang, |d.branch|))
        ==> c.branch[r][col] == d.branch[r][col])
  {
    if om.ll["ang"].n > 0 {
      AngleWriteFrame(d.branch, om.iang, d.mu, om.ll["ang"]);
    }
  }

  /** In AC mode with no capability-curve multipliers, every generator's VG
      is the solved VM of its bus, and no other generator entry changed. */
  lemma CorrectResultsVoltages(om: Om, d: ResultsData, updateMuPQ: (Matrix, seq<real>, seq<real>) -> Matrix)
    requires CorrectionsDefined(om, false, d) && !PQActive(om.ll)
    ensures var c := CorrectResults(om, false, d, updateMuPQ);
      SameShape(c.gen, d.gen) &&
      GenBusesValid(c.gen, c.bus) &&
      (forall r :: 0 <= r < |c.gen| ==> c.gen[r][VG] == c.bus[BusRowOf(c.gen, c.bus, r)][VM]) &&
      (forall r, col :: 0 <= r < |c.gen| && 0 <= col < |c.gen[r]| && col != VG ==> c.gen[r][col] == d.gen[r][col])
  {
    GenVoltagesConsistent(d.gen, d.bus);
  }

  /** Lines 115-133 on `raw` after a successful AC solve with
      RETURN_RAW_DER: `dg`/`g` left in `results` replace `raw` by a dict
      holding only them; otherwise constraint values and Jacobian are
      computed unless `raw` has `dg`; gradient and Hessian of the cost are
      always computed. `d` is `results` as the solver returned it (only
      `gen` has changed by then, and these lines do not read it). */
  function RawAfterSuccess(dc: bool, rawDer: bool, d: ResultsData, raw: RawData,
                           consfcn: seq<real> -> ConsEval, costfcn: seq<real> -> CostEval): RawData
  {
    if dc || !rawDer then raw
    else
      var r1 := if d.legacy.Some? then EmptyRaw.(dg := Some(d.legacy.value.dg), g := Some(d.legacy.value.g)) else raw;
      var r2 :=
        if r1.dg.None? then
          var ev := consfcn(d.x);
          r1.(g := Some(ev.geq + ev.h), dg := Some(ev.dgeqT + ev.dhT))
        else r1;
      var ce := costfcn(d.x);
      r2.(df := Some(ce.df), d2f := Some(ce.d2f))
  }

  /** Lines 145-151: after a failed AC solve with RETURN_RAW_DER the four
      derivative keys are set to empty arrays. */
  function RawAfterFailure(dc: bool, rawDer: bool, raw: RawData): RawData {
    if !dc && rawDer then raw.(g := Some([]), dg := Some([]), df := Some([]), d2f := Some([])) else raw
  }

  /** With RETURN_RAW_DER in AC mode, `raw` ends up with all four
      derivative keys whether or not the solve succeeded (unless a solver
      reported `dg` without `g`, which the code does not fill in), empty
      after a failure; otherwise it is left as the solver returned it.
      After a failure the solver's other keys survive. */
  lemma DerivativeSchema(dc: bool, rawDer: bool, success: bool, d: ResultsData, raw: RawData,
                         consfcn: seq<real> -> ConsEval, costfcn: seq<real> -> CostEval)
    ensures var r := if success then RawAfterSuccess(dc, rawDer, d, raw, consfcn, costfcn) else RawAfterFailure(dc, rawDer, raw);
      (!dc && rawDer && (raw.dg.Some? ==> raw.g.Some?) ==> r.g.Some? && r.dg.Some? && r.df.Some? && r.d2f.Some?) &&
      (!dc && rawDer && !success ==>
        r.g == Some([]) && r.dg == Some([]) && r.df == Some([]) && r.d2f == Some([]) &&
        r.output == raw.output && r.xr == raw.xr) &&
      (dc || !rawDer ==> r == raw)
  {
  }

  /** A relocation of `dg`/`g` from `results` discards everything else the
      solver put in `raw`, its `output` and `xr` included; the Jacobian
      and constraint values are then the relocated ones. */
  lemma LegacyRelocationDropsRaw(d: ResultsData, raw: RawData,
                                 consfcn: seq<real> -> ConsEval, costfcn: seq<real> -> CostEval)
    requires d.legacy.Some?
    ensures var r := RawAfterSuccess(false, true, d, raw, consfcn, costfcn);
      r.output.None? && r.xr.None? &&
      r.dg == Some(d.legacy.value.dg) && r.g == Some(d.legacy.value.g)
  {
  }
}
