/** The three dicts opf_execute changes in place: `results`, `raw` and the
    options `ppopt`. Each is a class whose fields are the dict's keys; each
    method is one of the function's in-place updates, and its contract
    gives the whole new contents in terms of the old. */
module OpfObjects {
  import opened Wrappers
  import opened Blocks
  import opened Expand
  import opened Tables
  import opened PwlPatch
  import opened OpfModel
  import opened PostSolve

  /** The `results` dict returned by a solver backend. */
  class Results {
    var bus: Matrix
    var gen: Matrix
    var branch: Matrix
    var x: seq<real>
    var mu: Multipliers
    var legacy: Option<LegacyDerivs>
    var varBlocks: Option<VarBlocks>
    var linBlocks: Option<MuBlocks>
    var nlnBlocks: Option<MuBlocks>
    var costBlocks: Option<map<string, real>>

    /** The dict's contents. */
    function Data(): ResultsData
      reads this
    {
      ResultsData(bus, gen, branch, x, mu, legacy, varBlocks, linBlocks, nlnBlocks, costBlocks)
    }

    constructor (d: ResultsData)
      ensures Data() == d
    {
      bus, gen, branch, x, mu := d.bus, d.gen, d.branch, d.x, d.mu;
      legacy := d.legacy;
      varBlocks, linBlocks, nlnBlocks, costBlocks := d.varBlocks, d.linBlocks, d.nlnBlocks, d.costBlocks;
    }

    /** Line 105: `gen[:, VG] = bus[gen[:, GEN_BUS].astype(int), VM]`. */
    method CopyBusVoltages()
      requires GenBusesValid(gen, bus)
      modifies this
      ensures Data() == old(Data()).(gen := WithGenVoltages(old(gen), old(bus)))
    {
      gen := WithGenVoltages(gen, bus);
    }

    /** Lines 108-112: when a capability-curve block is not empty, `gen` is
        replaced by what `update_mupq` makes of it and the net multipliers
        of the `PQh` and `PQl` blocks. */
    method UpdateCapabilityMultipliers(ll: Registry, updateMuPQ: (Matrix, seq<real>, seq<real>) -> Matrix)
      requires "PQh" in ll && "PQl" in ll && LinBlockFits(ll["PQh"], mu) && LinBlockFits(ll["PQl"], mu)
      modifies this
      ensures Data() == old(Data()).(gen :=
        if PQActive(ll) then
          updateMuPQ(old(gen), BoundDiff(old(mu).linL, old(mu).linU, ll["PQh"]), BoundDiff(old(mu).linL, old(mu).linU, ll["PQl"]))
        else old(gen))
    {
      if ll["PQh"].n > 0 || ll["PQl"].n > 0 {
        var muPQh := BoundDiff(mu.linL, mu.linU, ll["PQh"]);
        var muPQl := BoundDiff(mu.linL, mu.linU, ll["PQl"]);
        gen := updateMuPQ(gen, muPQh, muPQl);
      }
    }

    /** Lines 136-138: `del results['dg']; del results['g']`. */
    method DropLegacyDerivatives()
      requires legacy.Some?
      modifies this
      ensures Data() == old(Data()).(legacy := None)
    {
      legacy := None;
    }

    /** Lines 141-144: the angle-limit multipliers, per degree, into the
        branch table when the `ang` block is not empty. */
    method WriteAngleMultipliers(ll: Registry, iang: seq<int>)
      requires "ang" in ll && (ll["ang"].n > 0 ==> AngleWriteDefined(branch, iang, mu, ll["ang"]))
      modifies this
      ensures Data() == old(Data()).(branch :=
        if ll["ang"].n > 0 then AngleWrite(old(branch), iang, old(mu), ll["ang"]) else old(branch))
    {
      if ll["ang"].n > 0 {
        branch := AngleWrite(branch, iang, mu, ll["ang"]);
      }
    }

    /** Lines 154-161: `results['var']`, created when the variable order is
        not empty. */
    method StoreVarBlocks(order: seq<string>, reg: Registry)
      requires InRange(order, reg, |x|) && InRange(order, reg, |mu.varL|) && InRange(order, reg, |mu.varU|)
      modifies this
      ensures Data() == old(Data()).(varBlocks :=
        if order == [] then old(varBlocks)
        else Some(VarBlocks(BlockSlices(order, reg, old(x)), BlockSlices(order, reg, old(mu).varL), BlockSlices(order, reg, old(mu).varU))))
    {
      if order != [] {
        var vb := ExpandVar(order, reg, x, mu.varL, mu.varU);
        varBlocks := Some(vb);
      }
    }

    /** Lines 164-170: `results['lin']`, created when the linear-constraint
        order is not empty. */
    method StoreLinBlocks(order: seq<string>, reg: Registry)
      requires InRange(order, reg, |mu.linL|) && InRange(order, reg, |mu.linU|)
      modifies this
      ensures Data() == old(Data()).(linBlocks :=
        if order == [] then old(linBlocks)
        else Some(MuBlocks(BlockSlices(order, reg, old(mu).linL), BlockSlices(order, reg, old(mu).linU))))
    {
      if order != [] {
        var mb := ExpandMu(order, reg, mu.linL, mu.linU);
        linBlocks := Some(mb);
      }
    }

    /** Lines 174-180: `results['nln']`, created when the nonlinear-
        constraint order is not empty. */
    method StoreNlnBlocks(order: seq<string>, reg: Registry)
      requires InRange(order, reg, |mu.nlnL|) && InRange(order, reg, |mu.nlnU|)
      modifies this
      ensures Data() == old(Data()).(nlnBlocks :=
        if order == [] then old(nlnBlocks)
        else Some(MuBlocks(BlockSlices(order, reg, old(mu).nlnL), BlockSlices(order, reg, old(mu).nlnU))))
    {
      if order != [] {
        var mb := ExpandMu(order, reg, mu.nlnL, mu.nlnU);
        nlnBlocks := Some(mb);
      }
    }

    /** Lines 183-187: `results['cost']`, created when the cost order is not
        empty. */
    method StoreCostBlocks(order: seq<string>, reg: Registry, computeCost: (seq<real>, string) -> real)
      requires forall name :: name in order ==> name in reg
      modifies this
      ensures Data() == old(Data()).(costBlocks :=
        if order == [] then old(costBlocks) else Some(CostTerms(order, reg, old(x), computeCost)))
    {
      if order != [] {
        var c := ExpandCost(order, reg, x, computeCost);
        costBlocks := Some(c);
      }
    }

    /** Line 203: `k` placeholder zeros spliced into `x` at `nx`. */
    method InsertPlaceholders(nx: nat, k: nat)
      modifies this
      ensures Data() == old(Data()).(x := InsertZeros(old(x), nx, k))
    {
      x := InsertZeros(x, nx, k);
    }
  }

  /** The `raw` dict returned by a solver backend. */
  class Raw {
    var output: Option<Output>
    var xr: Option<seq<real>>
    var g: Option<seq<real>>
    var dg: Option<Matrix>
    var df: Option<seq<real>>
    var d2f: Option<Matrix>

    /** The dict's contents. */
    function Data(): RawData
      reads this
    {
      RawData(output, xr, g, dg, df, d2f)
    }

    constructor (d: RawData)
      ensures Data() == d
    {
      output, xr := d.output, d.xr;
      g, dg, df, d2f := d.g, d.dg, d.df, d.d2f;
    }

    /** Lines 99-100: stamps the algorithm code into `output` or reports
        the exception Python raises; on an exception nothing changes. */
    method StampAlgorithm(alg: int) returns (err: Option<PyError>)
      modifies this
      ensures match StampOutput(old(output), alg)
        case Success(o) => err.None? && Data() == old(Data()).(output := Some(o))
        case Failure(e) => err == Some(e) && Data() == old(Data())
    {
      match StampOutput(output, alg)
      case Success(o) =>
        output := Some(o);
        err := None;
      case Failure(e) =>
        err := Some(e);
    }

    /** Lines 119-120: `dg` and `g` relocated from `results`. */
    method SetLegacyDerivatives(l: LegacyDerivs)
      modifies this
      ensures Data() == old(Data()).(dg := Some(l.dg), g := Some(l.g))
    {
      dg := Some(l.dg);
      g := Some(l.g);
    }

    /** Lines 127-128: constraint values (equalities first) and the
        Jacobian, one row per constraint. */
    method SetConstraintDerivatives(ev: ConsEval)
      modifies this
      ensures Data() == old(Data()).(g := Some(ev.geq + ev.h), dg := Some(ev.dgeqT + ev.dhT))
    {
      g := Some(ev.geq + ev.h);
      dg := Some(ev.dgeqT + ev.dhT);
    }

    /** Lines 132-133: gradient and Hessian of the cost. */
    method SetCostDerivatives(ce: CostEval)
      modifies this
      ensures Data() == old(Data()).(df := Some(ce.df), d2f := Some(ce.d2f))
    {
      df := Some(ce.df);
      d2f := Some(ce.d2f);
    }

    /** Lines 148-151: the four derivative keys as empty arrays. */
    method SetEmptyDerivatives()
      modifies this
      ensures Data() == old(Data()).(g := Some([]), dg := Some([]), df := Some([]), d2f := Some([]))
    {
      dg, g, df, d2f := Some([]), Some([]), Some([]), Some([]);
    }

    /** Line 202: `k` placeholder zeros spliced into `xr` at `nx`; a
        missing `xr` raises KeyError and changes nothing. */
    method InsertPlaceholders(nx: nat, k: nat) returns (err: Option<PyError>)
      modifies this
      ensures old(xr).None? ==> err == Some(KeyError("xr")) && Data() == old(Data())
      ensures old(xr).Some? ==> err.None? && Data() == old(Data()).(xr := Some(InsertZeros(old(xr).value, nx, k)))
    {
      if xr.None? {
        err := Some(KeyError("xr"));
      } else {
        xr := Some(InsertZeros(xr.value, nx, k));
        err := None;
      }
    }
  }

  /** The options `ppopt`, reduced to the keys opf_execute reads (PF_DC,
      OPF_ALG, RETURN_RAW_DER) and the one it writes (OPF_ALG_POLY). */
  class Options {
    var pfDc: bool
    var opfAlg: int
    var returnRawDer: bool
    var opfAlgPoly: int

    constructor (pfDc: bool, opfAlg: int, returnRawDer: bool, opfAlgPoly: int)
      ensures this.pfDc == pfDc && this.opfAlg == opfAlg
      ensures this.returnRawDer == returnRawDer && this.opfAlgPoly == opfAlgPoly
    {
      this.pfDc, this.opfAlg := pfDc, opfAlg;
      this.returnRawDer, this.opfAlgPoly := returnRawDer, opfAlgPoly;
    }
  }
}
