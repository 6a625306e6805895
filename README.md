# opf_execute: dispatch and result assembly of PYPOWER's optimal power flow

This project models `opf_execute(om, ppopt)` from PYPOWER and proves
properties of the model. The function does four things:

1. It picks the solver backend from the DC flag `PF_DC` and the algorithm
   code `OPF_ALG`. The backends are the DC solver, MIPS (`pipsopf_solver`)
   and IPOPT (`ipoptopf_solver`).
2. It corrects the solved case in place. In AC mode it copies bus voltages
   into the generator table and folds the capability-curve multipliers
   into it. Optionally it moves or computes constraint and cost
   derivatives into `raw`. It drops the legacy `dg`/`g` keys and writes the
   angle-limit multipliers into the branch table.
3. It expands the flat solution `x` and the flat multiplier vectors into
   per-name maps. There is one map per space (`var`, `lin`, `nln` and
   `cost`), and the name ranges come from the model's block index registry.
4. It applies the PWL dimension patch. When piecewise-linear costs were
   converted to polynomials, it splices one zero per converted cost into
   `x` and `raw['xr']`.

## Layout

| file | module | contents |
|---|---|---|
| `pybits.dfy` | `PyBits` | Python's `|` on unbounded ints, and the chained comparison `x == a \| x == b` |
| `alg_codes.dfy` | `AlgCodes` | code resolution and the routing table |
| `blocks.dfy` | `Blocks` | the block index registry and slices |
| `expand.dfy` | `Expand` | the per-space expansion loops |
| `tables.dfy` | `Tables` | the bus/gen/branch tables, the voltage gather and the column write |
| `pwl_patch.dfy` | `PwlPatch` | the zero splice and its inverse |
| `model.dfy` | `OpfModel` | the values of `om`, `results`, `raw`, and the foreign routines |
| `post_solve.dfy` | `PostSolve` | the post-solve corrections as functions on dict contents |
| `objects.dfy` | `OpfObjects` | the classes `Results`, `Raw` and `Options` for the dicts changed in place |
| `execute.dfy` | `Execute` | `RunSpec`, a whole run on values, and the method `OpfExecute` proved to agree with it |
| `run_properties.dfy` | `RunProperties` | what a whole run guarantees |

The pure parts are functions and lemmas: code resolution, routing and the
splice. The parts that mutate dicts are methods on classes whose fields are
the dict keys. Each such method states the whole new contents as a
function of the old ones, and the per-space loops carry their loop
invariants. Values on the numeric side are `real`.

### Where the code differs from its comments

- **Deprecated-code remap (lines 76-83).** The comments describe a
  logical-OR remap, for example 100 or 200 becoming 300. Python instead
  parses `alg == 100 | alg == 200` as the chained comparison
  `alg == (100 | alg) == 200`. That is false for every integer because
  `100 | alg` keeps bit 2 and 200 lacks it. The same holds for the other
  three pairs. The model follows the code, and `RemapDeprecatedIsIdentity`
  proves that the remap changes nothing. A deprecated code therefore ends
  in the invalid-code branch.
- **Invalid code or missing IPOPT.** Lines 95 and 97 only write a message
  to stderr, as if the run went on. No backend ran, so line 99 reads the
  unbound `raw` and raises `UnboundLocalError`. The model returns
  `Raised(UnboundLocal)`.
- **Algorithm stamp (lines 99-100).** This is not a plain "stamp if
  missing". A `raw` without `output` raises `KeyError`, because the
  assignment indexes `raw['output']`. An `alg` that is already an int makes
  `len` raise `TypeError`.
- **Legacy relocation (lines 117-120).** This step replaces `raw` with a
  fresh dict, which loses `output` and `xr`. If the stamp succeeded and the PWL patch then applies,
  line 202 raises `KeyError('xr')` (`RelocationBreaksPwlPatch`).

## Model

| member | source | states |
|---|---|---|
| `AlgCodes.RemapDeprecated` | pypower/opf_execute.py:76-83 | defines the deprecated-code remap as Python evaluates it: four chained comparisons `alg == (a \| alg) == b`, tried in order, mapping to 300, 320, 340 and 360, else the code unchanged |
| `AlgCodes.ResolveAc` | pypower/opf_execute.py:71-85 | defines the AC code: 0 becomes 560, then the deprecated-code remap; this is the value written to OPF_ALG_POLY |
| `AlgCodes.ResolvedAlg` | pypower/opf_execute.py:61-85 | defines the code in force after dispatch: the raw OPF_ALG in DC mode, the resolved AC code otherwise |
| `AlgCodes.RouteFor` | pypower/opf_execute.py:61-97 | defines the dispatch: DC solver in DC mode; in AC mode MIPS for 560/565, IPOPT for 580 when pyipopt imports, else the missing-IPOPT message, and the invalid-code message for any other code |
| `AlgCodes.RemapDeprecatedIsIdentity` | pypower/opf_execute.py:76-83 | the four chained comparisons are false for every integer, so the deprecated-code remap returns its input unchanged |
| `AlgCodes.ResolveAcKeeps` | pypower/opf_execute.py:61-85 | in AC mode code 0 resolves to 560 and every other code, deprecated ones included, is kept; in DC mode the raw OPF_ALG stays in force |
| `AlgCodes.RouteTable` | pypower/opf_execute.py:61-97 | routing by raw code, each entry an if-and-only-if: DC solver iff DC; MIPS iff AC with code 0, 560 or 565; IPOPT iff AC, 580 and pyipopt importable; missing IPOPT iff AC, 580 and not importable; invalid code otherwise |
| `AlgCodes.DeprecatedCodesAreInvalid` | pypower/opf_execute.py:76-97 | codes 100, 200, 120, 220, 140, 240, 160 and 260 are not remapped to 300..360 and are routed to the invalid-code branch |
| `Execute.Dispatch` | pypower/opf_execute.py:61-97 | returns the route and the code in force given by the routing table; writes OPF_ALG_POLY with the resolved code in AC mode only, and changes no other option |
| `PostSolve.StampOutput` | pypower/opf_execute.py:99-100 | raises KeyError when `output` is missing and TypeError when `alg` is an int; otherwise the output afterwards is traced: an untraced output gets the code and a traced one is kept |
| `OpfObjects.Raw.StampAlgorithm` | pypower/opf_execute.py:99-100 | updates `raw['output']` as the stamp says, or reports its exception and changes nothing |
| `Tables.Trunc` | pypower/opf_execute.py:105 | defines numpy's `astype(int)` on a float: truncation toward zero |
| `Tables.PyIndex` | pypower/opf_execute.py:105 | the row a numpy index selects, negative indices counted from the end; a valid index gives a row inside the table |
| `Tables.BusRowOf` | pypower/opf_execute.py:105 | the bus row a generator's GEN_BUS entry selects after truncation; it lies inside the bus table |
| `Tables.WithGenVoltages` | pypower/opf_execute.py:105 | each generator's VG becomes VM of its bus row (index truncated toward zero, negative rows counted from the end); every other generator entry is unchanged |
| `Tables.GenVoltagesConsistent` | pypower/opf_execute.py:105 | after the copy-back every generator still names the same bus, and its VG equals that bus's VM |
| `OpfObjects.Results.CopyBusVoltages` | pypower/opf_execute.py:105 | the generator table becomes the gathered one and nothing else of `results` changes |
| `PostSolve.BoundDiff` | pypower/opf_execute.py:109-110 | the net multiplier of a block: one entry per block row, lower minus upper multiplier |
| `OpfObjects.Results.UpdateCapabilityMultipliers` | pypower/opf_execute.py:108-112 | `gen` is replaced by update_mupq of the PQh/PQl net multipliers exactly when one of the two blocks is non-empty |
| `Tables.WriteColumn` | pypower/opf_execute.py:143-144 | numpy's `m[rows, col] = vals`: only column `col` of the selected rows changes, and a row named twice keeps the value of its last selector (an ordering numpy does not promise, chosen by the model) |
| `PostSolve.AngleWriteFrame` | pypower/opf_execute.py:141-144 | only columns MU_ANGMIN and MU_ANGMAX of rows `iang` change; with distinct rows, row `iang[j]` holds the j-th lower and upper `ang` multiplier times pi/180 |
| `Tables.PerDegree` | pypower/opf_execute.py:143-144 | the multiplier vector scaled by pi/180, same length, entry by entry |
| `PostSolve.AngleWrite` | pypower/opf_execute.py:141-144 | defines the angle write: the per-degree lower `ang` multipliers into column MU_ANGMIN of rows `iang`, then the upper ones into MU_ANGMAX |
| `Tables.PerDegreeRoundTrip` | pypower/opf_execute.py:143-144 | the pi/180 scaling is undone by multiplying by 180/pi |
| `OpfObjects.Results.WriteAngleMultipliers` | pypower/opf_execute.py:140-144 | the branch table gets the angle write when the `ang` block is non-empty; nothing else of `results` changes |
| `OpfObjects.Results.DropLegacyDerivatives` | pypower/opf_execute.py:135-138 | removes `dg`/`g` and changes nothing else |
| `PostSolve.CorrectResults` | pypower/opf_execute.py:102-144 | defines the corrections after a success: in AC mode the voltage copy-back and then update_mupq when PQh or PQl is non-empty; in both modes `dg`/`g` removed and the angle write when `ang` is non-empty |
| `PostSolve.CorrectResultsFrame` | pypower/opf_execute.py:102-144 | the corrections keep bus, `x`, multipliers and block maps; they always drop `dg`/`g`; they leave `gen` alone in DC mode; they change `branch` only in the angle columns of rows `iang` |
| `PostSolve.CorrectResultsVoltages` | pypower/opf_execute.py:103-112 | AC mode with empty PQh/PQl: every generator's VG equals its bus's VM and no other generator entry changes |
| `PostSolve.RawAfterSuccess` | pypower/opf_execute.py:114-133 | defines `raw` after a success: unchanged in DC mode or without RETURN_RAW_DER; otherwise replaced by the relocated `dg`/`g` if `results` has them, then constraint values and Jacobian from opf_consfcn if `dg` is still missing, then `df`/`d2f` from opf_costfcn |
| `PostSolve.RawAfterFailure` | pypower/opf_execute.py:145-151 | defines `raw` after a failure: the four derivative keys set to empty arrays in AC mode with RETURN_RAW_DER, otherwise unchanged |
| `PostSolve.DerivativeSchema` | pypower/opf_execute.py:115-151 | with RETURN_RAW_DER in AC mode `raw` ends with all four derivative keys, which are empty after a failure; after a failure the solver's other keys survive; in DC mode or without the option `raw` is untouched |
| `PostSolve.LegacyRelocationDropsRaw` | pypower/opf_execute.py:115-128 | relocating `dg`/`g` leaves a `raw` without `output` or `xr`, whose `dg`/`g` are the relocated ones |
| `Execute.RawDerivatives` | pypower/opf_execute.py:114-133 | the `raw` in force afterwards (the same object or a fresh one) holds what lines 115-133 compute |
| `OpfObjects.Raw.SetLegacyDerivatives` | pypower/opf_execute.py:117-120 | sets `dg` and `g` from the results, nothing else |
| `OpfObjects.Raw.SetConstraintDerivatives` | pypower/opf_execute.py:122-128 | `g` becomes equality values then inequality values; `dg` becomes the Jacobian rows in the same order |
| `OpfObjects.Raw.SetCostDerivatives` | pypower/opf_execute.py:130-133 | sets `df` and `d2f`, nothing else |
| `OpfObjects.Raw.SetEmptyDerivatives` | pypower/opf_execute.py:145-151 | sets the four derivative keys to empty arrays, nothing else |
| `Execute.PostSolveStep` | pypower/opf_execute.py:102-151 | `results` and `raw` become the corrected ones after a success and the failure schema after a failure |
| `Blocks.PackedBounds` | pypower/opf_execute.py:153-161 | in a back-to-back registry layout every block lies between the layout's start and end |
| `Blocks.PackedIsInRange` | pypower/opf_execute.py:153-161 | a vector as long as a packed layout can be indexed by every block, as the `arange(i1, iN)` indexing needs |
| `Expand.BlockSlices` | pypower/opf_execute.py:153-180 | keys are exactly the ordered names of positive width; each value has length `iN - i1` and holds the vector's elements from `i1` |
| `Expand.CostTerms` | pypower/opf_execute.py:182-187 | keys are exactly the ordered cost names of positive width; each value is `compute_cost(x, name)` |
| `Expand.ExpandVar` | pypower/opf_execute.py:154-161 | the loop's value and multiplier maps are the block slices of `x` and of the variable multipliers |
| `Expand.ExpandMu` | pypower/opf_execute.py:164-180 | the loop's lower and upper maps are the block slices of the constraint multipliers |
| `Expand.ExpandCost` | pypower/opf_execute.py:183-187 | the loop's map is the per-name cost map |
| `OpfObjects.Results.StoreVarBlocks` | pypower/opf_execute.py:153-161 | `results['var']` is set to the expansion iff the variable order is non-empty; nothing else changes |
| `OpfObjects.Results.StoreLinBlocks` | pypower/opf_execute.py:163-170 | `results['lin']` is set iff the linear order is non-empty; nothing else changes |
| `OpfObjects.Results.StoreNlnBlocks` | pypower/opf_execute.py:172-180 | `results['nln']` is set iff the nonlinear order is non-empty; nothing else changes |
| `OpfObjects.Results.StoreCostBlocks` | pypower/opf_execute.py:182-187 | `results['cost']` is set iff the cost order is non-empty; nothing else changes |
| `Execute.Expanded` | pypower/opf_execute.py:153-187 | defines the expansion on `results`: each space with a non-empty order gets its map of block slices (costs: per-name compute_cost), `nln` only in AC mode; other keys unchanged |
| `Execute.ExpandStep` | pypower/opf_execute.py:153-187 | `results` becomes the expansion of all spaces, with `nln` only in AC mode |
| `PwlPatch.PwlApplies` | pypower/opf_execute.py:193 | defines when the patch runs: some cost was converted (`len(pwl1) > 0`) and the code in force is neither 545 nor 550 |
| `PwlPatch.SplitPoint` | pypower/opf_execute.py:196-199 | defines the split point: the end of the `Pg` block in DC mode, of the `Qg` block in AC mode |
| `PwlPatch.InsertZeros` | pypower/opf_execute.py:201-203 | length grows by `k`; the prefix before the cut and the suffix after it are kept in order; `k` zeros lie between; the cut is clamped to the length as Python slicing does |
| `PwlPatch.RemoveSegment` | pypower/opf_execute.py:201-203 | drops `k` elements at a position and keeps the rest in order |
| `PwlPatch.RemoveAfterInsert` | pypower/opf_execute.py:201-203 | removing the placeholder segment gives back the original vector |
| `PwlPatch.InsertNoneIsIdentity` | pypower/opf_execute.py:192-203 | with no converted cost the splice returns the vector unchanged |
| `PwlPatch.BlocksAfterInsert` | pypower/opf_execute.py:189-203 | blocks before the split point keep their contents in place; blocks after it keep their contents `k` places later |
| `OpfObjects.Results.InsertPlaceholders` | pypower/opf_execute.py:203 | `x` becomes the spliced vector and nothing else changes |
| `OpfObjects.Raw.InsertPlaceholders` | pypower/opf_execute.py:202 | `xr` becomes the spliced vector, or KeyError is reported when `xr` is missing |
| `Execute.Finish` | pypower/opf_execute.py:102-203 | defines the run after a successful stamp: corrections or failure derivatives, the expansion, then the PWL splice of `x` and `xr`, or KeyError('xr') when the patch applies and `xr` is missing |
| `Execute.RunSpec` | pypower/opf_execute.py:35-205 | defines a whole run on values: UnboundLocalError when no backend runs, the stamp's exception, or what `Finish` gives on the chosen backend's output |
| `Execute.FinishStep` | pypower/opf_execute.py:102-203 | after a successful stamp, the outcome is what `Finish` gives: corrections or failure derivatives, the expansion, then the PWL splice or KeyError('xr'); `results` stays the same object |
| `Execute.OpfExecute` | pypower/opf_execute.py:35-205 | updates the options as dispatch says and returns exactly what `RunSpec` gives, with fresh `results` and `raw` objects |
| `RunProperties.NoBackendRaises` | pypower/opf_execute.py:88-100 | an AC code other than 0, 560, 565 and 580, or 580 without pyipopt, makes the run raise UnboundLocalError |
| `RunProperties.RaisesOnlyAsStated` | pypower/opf_execute.py:99-203 | once a backend runs, the run raises iff the stamp raises or the PWL patch applies to a `raw` without `xr` (missing or lost in relocation) |
| `RunProperties.RelocationBreaksPwlPatch` | pypower/opf_execute.py:117-202 | once the stamp succeeds, relocated `dg`/`g` together with an applicable PWL patch make the run raise KeyError('xr') |
| `RunProperties.StampRecorded` | pypower/opf_execute.py:99-100 | unless `raw` was replaced, the returned `raw['output']` is traced, and an untraced one holds the code in force |
| `RunProperties.AcDefaultRunsPips` | pypower/opf_execute.py:71-100 | AC with OPF_ALG 0 runs MIPS and stamps an untraced output with 560 |
| `RunProperties.AcSuccessVoltages` | pypower/opf_execute.py:102-112 | successful AC run with empty PQh/PQl: the returned generator VG equals its bus's VM, and the bus table is the solver's |
| `RunProperties.ResultsTables` | pypower/opf_execute.py:102-144 | success is the solver's; the bus table is kept; on success `dg`/`g` are gone and `branch` changes only in the angle columns of rows `iang`; on failure `gen`, `branch`, `dg`/`g` are the solver's |
| `RunProperties.RunBlocks` | pypower/opf_execute.py:102-203 | the block maps of a returned run are the expansion of the solver's own results, because the corrections and the PWL patch do not touch them |
| `RunProperties.VarBlocksOfRun` | pypower/opf_execute.py:153-161 | when the solver's results hold no `var` map, `results['var']` exists iff the variable order is non-empty; `val`, `mu.l` and `mu.u` have the same keys, exactly the names of positive width; values are slices of the solver's unpatched `x` and multipliers |
| `RunProperties.ConstraintBlocksOfRun` | pypower/opf_execute.py:163-187 | when the solver's results hold no `lin`, `nln` or `cost` map, `lin` and `cost` exist iff their orders are non-empty, and `nln` iff AC and its order is non-empty; the lower and upper maps of a space have the same keys, exactly the names of positive width; values are multiplier slices or per-name costs |
| `RunProperties.PwlPatchOfRun` | pypower/opf_execute.py:189-203 | when the patch applies (pwl1 non-empty, code not 545/550), `x` and `xr` are the solver's spliced at `iN['Pg']` (DC) or `iN['Qg']` (AC); otherwise `x` is the solver's; with empty pwl1, and `raw` not replaced by the relocation, `xr` is also kept |
| `RunProperties.FailureDerivatives` | pypower/opf_execute.py:145-151 | after a failed solve, AC with RETURN_RAW_DER gives four empty derivative keys; otherwise `raw`'s derivative keys are the solver's |

## Left out

- The solver backends `dcopf_solver`, `pipsopf_solver` and `ipoptopf_solver` are a function from the backend tag to a `(results, success, raw)` value. The backends' output is a parameter of the run, so the model does not say how it depends on `om` or `ppopt`. That includes the OPF_ALG_POLY value written at line 85 just before the backend is called.
- The `__import__('pyipopt')` probe is the boolean `ipoptAvailable`. The bare `except` at line 94 would also catch exceptions raised inside `ipoptopf_solver`; the model's backend raises none.
- `update_mupq` is a given function of the generator table and the two net multiplier vectors; `baseMVA` and `Apqdata` are folded into it.
- `makeYbus` and `opf_consfcn` are one given function of `x` that returns the constraint values and the Jacobians, already transposed; the model keeps only the concatenation.
- `opf_costfcn` is a given function of `x`. `om.compute_cost` is a given function of `x` and the name.
- `om.build_cost_params()` is left out: a side effect on the model object. The cost registry is taken as already built.
- Floating point is left out: values are exact reals and pi is 3.141592653589793, the shortest decimal form of the double (whose exact value is 3.14159265358979311599...). Rounding in the pi/180 scaling and in the multiplier subtraction is not modelled.
- The version banner, the stdout/stderr messages and VERBOSE are I/O. The routes `IpoptMissing` and `InvalidAlg` stand for the two error messages.
- Missing registry keys and out-of-range indices are preconditions, not modelled exceptions. This covers `PQh`, `PQl`, `ang`, `Pg`, `Qg`, ordered names and bus or branch rows. `Fits` and `OutputFits` state these preconditions.
- numpy broadcasting of a length-1 multiplier slice over several `iang` rows is left out: one multiplier per row is required.
- `Tables.WriteColumn`: when `iang` names a row twice, numpy does not promise which write wins; the model picks the last one. The rows of `iang` are distinct, so this never applies to the run.
- Python dicts keep insertion order, so `results['var']['val']` and the other block dicts list their names in registry order. The model's `map`s do not keep that order; nothing in `opf_execute` reads it.
- Python's clamping of slices that run past a vector is left out: blocks must lie inside the vectors. The PWL cut does model clamping.
- A `results` holding `dg` without `g` would raise at line 120 or 138 after a successful solve. The datatype holds the two together.
- Other keys of `results`, `raw`, `raw['output']` and `ppopt` are not modelled.
- `RunProperties.AcSuccessVoltages`: stated only when PQh and PQl are empty, because `update_mupq`, which is outside the model, rewrites `gen` after the copy-back. Line 105 itself is stated unconditionally by `Tables.WithGenVoltages`.
- `PostSolve.AngleWriteFrame`: the written values are stated only for distinct `iang` rows, as the model builder produces them. For repeated rows `Tables.WriteColumn` states last-write-wins.
- `PostSolve.DerivativeSchema`: the four keys are guaranteed only when a solver that reports `dg` also reports `g`, because the code does not fill in a missing `g`.
