/** Re-expansion of flat solution and multiplier vectors into per-block
    maps keyed by block name (opf_execute, lines 153-187). */
module Expand {
  import opened Blocks

  /** `results['var']`: per-name value and lower/upper bound multipliers. */
  datatype VarBlocks = VarBlocks(val: map<string, seq<real>>, muL: map<string, seq<real>>, muU: map<string, seq<real>>)

  /** `results['lin']` and `results['nln']`: per-name lower/upper multipliers. */
  datatype MuBlocks = MuBlocks(l: map<string, seq<real>>, u: map<string, seq<real>>)

  /** The per-name slices of `v` for the names of `order` whose block is not
      empty: exactly those names are keys, and each one maps to the
      elements `[i1, iN)` of `v`. */
  function BlockSlices(order: seq<string>, reg: Registry, v: seq<real>): (m: map<string, seq<real>>)
    requires InRange(order, reg, |v|)
    ensures forall name :: name in m <==> name in order && reg[name].n > 0
    ensures forall name :: name in m ==>
      |m[name]| == reg[name].iN() - reg[name].i1 &&
      forall j :: 0 <= j < |m[name]| ==> m[name][j] == v[reg[name].i1 + j]
  {
    map name | name in order && reg[name].n > 0 :: Slice(v, reg[name])
  }

  /** The per-name costs, `compute_cost(x, name)`, for the cost names whose
      block is not empty. */
  function CostTerms(order: seq<string>, reg: Registry, x: seq<real>, computeCost: (seq<real>, string) -> real): (m: map<string, real>)
    requires forall name :: name in order ==> name in reg
    ensures forall name :: name in m <==> name in order && reg[name].n > 0
    ensures forall name :: name in m ==> m[name] == computeCost(x, name)
  {
    map name | name in order && reg[name].n > 0 :: computeCost(x, name)
  }

  /** A name dropped from a prefix of `order` changes no block: the slices
      of the names seen so far grow by one entry at each non-empty name. */
  lemma BlockSlicesStep(order: seq<string>, reg: Registry, v: seq<real>, i: nat)
    requires InRange(order, reg, |v|) && i < |order|
    ensures InRange(order[..i], reg, |v|) && InRange(order[..i + 1], reg, |v|)
    ensures BlockSlices(order[..i + 1], reg, v) ==
      if reg[order[i]].n > 0 then BlockSlices(order[..i], reg, v)[order[i] := Slice(v, reg[order[i]])]
      else BlockSlices(order[..i], reg, v)
  {
    assert order[..i + 1] == order[..i] + [order[i]];
  }

  /** Lines 154-161: the loop over `om.var['order']` that fills the value
      and the two multiplier maps of every non-empty variable block. */
  method ExpandVar(order: seq<string>, reg: Registry, x: seq<real>, muL: seq<real>, muU: seq<real>)
    returns (vb: VarBlocks)
    requires InRange(order, reg, |x|) && InRange(order, reg, |muL|) && InRange(order, reg, |muU|)
    ensures vb.val == BlockSlices(order, reg, x)
    ensures vb.muL == BlockSlices(order, reg, muL)
    ensures vb.muU == BlockSlices(order, reg, muU)
  {
    var val: map<string, seq<real>> := map[];
    var l: map<string, seq<real>> := map[];
    var u: map<string, seq<real>> := map[];
    for i := 0 to |order|
      invariant InRange(order[..i], reg, |x|) && InRange(order[..i], reg, |muL|) && InRange(order[..i], reg, |muU|)
      invariant val == BlockSlices(order[..i], reg, x)
      invariant l == BlockSlices(order[..i], reg, muL)
      invariant u == BlockSlices(order[..i], reg, muU)
    {
      var name := order[i];
      BlockSlicesStep(order, reg, x, i);
      BlockSlicesStep(order, reg, muL, i);
      BlockSlicesStep(order, reg, muU, i);
      if reg[name].n > 0 {
        var b := reg[name];
        val := val[name := x[b.i1..b.iN()]];
        l := l[name := muL[b.i1..b.iN()]];
        u := u[name := muU[b.i1..b.iN()]];
      }
    }
    assert order[..|order|] == order;
    vb := VarBlocks(val, l, u);
  }

  /** Lines 164-170 and 174-180: the loop over a constraint space's `order`
      that fills the lower and upper multiplier maps of every non-empty
      block (the same code serves the linear and the nonlinear space). */
  method ExpandMu(order: seq<string>, reg: Registry, muL: seq<real>, muU: seq<real>)
    returns (mb: MuBlocks)
    requires InRange(order, reg, |muL|) && InRange(order, reg, |muU|)
    ensures mb.l == BlockSlices(order, reg, muL)
    ensures mb.u == BlockSlices(order, reg, muU)
  {
    var l: map<string, seq<real>> := map[];
    var u: map<string, seq<real>> := map[];
    for i := 0 to |order|
      invariant InRange(order[..i], reg, |muL|) && InRange(order[..i], reg, |muU|)
      invariant l == BlockSlices(order[..i], reg, muL)
      invariant u == BlockSlices(order[..i], reg, muU)
    {
      var name := order[i];
      BlockSlicesStep(order, reg, muL, i);
      BlockSlicesStep(order, reg, muU, i);
      if reg[name].n > 0 {
        var b := reg[name];
        l := l[name := muL[b.i1..b.iN()]];
        u := u[name := muU[b.i1..b.iN()]];
      }
    }
    assert order[..|order|] == order;
    mb := MuBlocks(l, u);
  }

  /** Lines 183-187: the loop over `om.cost['order']` that stores the cost
      of every non-empty cost block. */
  method ExpandCost(order: seq<string>, reg: Registry, x: seq<real>, computeCost: (seq<real>, string) -> real)
    returns (c: map<string, real>)
    requires forall name :: name in order ==> name in reg
    ensures c == CostTerms(order, reg, x, computeCost)
  {
    c := map[];
    for i := 0 to |order|
      invariant c == CostTerms(order[..i], reg, x, computeCost)
    {
      var name := order[i];
      assert order[..i + 1] == order[..i] + [name];
      if reg[name].n > 0 {
        c := c[name := computeCost(x, name)];
      }
    }
    assert order[..|order|] == order;
  }
}
