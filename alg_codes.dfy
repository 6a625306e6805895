/** Resolution of the OPF algorithm code and the choice of solver backend
    (opf_execute, lines 61-97). */
module AlgCodes {
  import opened PyBits

  /** The three solver backends the dispatcher can call. */
  datatype Backend = DcOpf | Pips | Ipopt

  /** What the dispatcher does: call one backend, or only write a
      diagnostic (IPOPT requested but `pyipopt` cannot be imported, or a
      code that names no AC algorithm). */
  datatype Route = Solve(backend: Backend) | IpoptMissing | InvalidAlg

  /** The MIPS code used when OPF_ALG is left at 0 in the AC branch. */
  const DefaultAcAlg: int := 560

  /** The remapping of deprecated codes as Python evaluates it. Each test
      `alg == 100 | alg == 200` is the chained comparison
      `alg == (100 | alg) == 200`, not a disjunction of two equalities. */
  function RemapDeprecated(alg: int): int {
    if ChainedEqOr(alg, 100, 200) then 300
    else if ChainedEqOr(alg, 120, 220) then 320
    else if ChainedEqOr(alg, 140, 240) then 340
    else if ChainedEqOr(alg, 160, 260) then 360
    else alg
  }

  /** None of the four chained tests holds for any integer: in each pair the
      second code lacks a bit of the first (bit 2 of 100, bit 5 of 120,
      bit 2 of 140, bit 5 of 160), and `100 | alg` keeps every bit of 100.
      So the remap changes nothing. */
  lemma RemapDeprecatedIsIdentity(alg: int)
    ensures RemapDeprecated(alg) == alg
  {
    ChainedEqOrFalse(alg, 100, 200, 2);
    ChainedEqOrFalse(alg, 120, 220, 5);
    ChainedEqOrFalse(alg, 140, 240, 2);
    ChainedEqOrFalse(alg, 160, 260, 5);
  }

  /** The code the AC branch settles on and writes to OPF_ALG_POLY. */
  function ResolveAc(alg: int): int {
    RemapDeprecated(if alg == 0 then DefaultAcAlg else alg)
  }

  /** The code in force after dispatch: the raw OPF_ALG in the DC branch,
      the resolved one in the AC branch. */
  function ResolvedAlg(dc: bool, alg: int): int {
    if dc then alg else ResolveAc(alg)
  }

  /** The dispatch decision; `ipoptAvailable` stands for the outcome of
      `__import__('pyipopt')`. */
  function RouteFor(dc: bool, alg: int, ipoptAvailable: bool): Route {
    if dc then Solve(DcOpf)
    else
      var a := ResolveAc(alg);
      if a == 560 || a == 565 then Solve(Pips)
      else if a == 580 then (if ipoptAvailable then Solve(Ipopt) else IpoptMissing)
      else InvalidAlg
  }

  /** In the AC branch only 0 is changed (to 560); every other code,
      a deprecated one included, is kept as given. */
  lemma ResolveAcKeeps(alg: int)
    ensures ResolveAc(alg) == (if alg == 0 then 560 else alg)
    ensures ResolvedAlg(true, alg) == alg
  {
    RemapDeprecatedIsIdentity(if alg == 0 then DefaultAcAlg else alg);
  }

  /** The routing table in terms of the raw OPF_ALG value, each entry an
      if-and-only-if. */
  lemma RouteTable(dc: bool, alg: int, ipoptAvailable: bool)
    ensures RouteFor(dc, alg, ipoptAvailable) == Solve(DcOpf) <==> dc
    ensures RouteFor(dc, alg, ipoptAvailable) == Solve(Pips)
      <==> !dc && (alg == 0 || alg == 560 || alg == 565)
    ensures RouteFor(dc, alg, ipoptAvailable) == Solve(Ipopt)
      <==> !dc && alg == 580 && ipoptAvailable
    ensures RouteFor(dc, alg, ipoptAvailable) == IpoptMissing
      <==> !dc && alg == 580 && !ipoptAvailable
    ensures RouteFor(dc, alg, ipoptAvailable) == InvalidAlg
      <==> !dc && alg != 0 && alg != 560 && alg != 565 && alg != 580
  {
    ResolveAcKeeps(alg);
  }

  /** The deprecated codes 100..260 are neither remapped to 300..360 nor
      routed to any solver: each ends in the invalid-code branch. */
  lemma DeprecatedCodesAreInvalid(alg: int, ipoptAvailable: bool)
    requires alg in {100, 200, 120, 220, 140, 240, 160, 260}
    ensures ResolveAc(alg) == alg
    ensures RouteFor(false, alg, ipoptAvailable) == InvalidAlg
  {
    RouteTable(false, alg, ipoptAvailable);
    ResolveAcKeeps(alg);
  }
}
