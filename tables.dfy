/** The bus, generator and branch tables of a solved case, as row-major
    matrices, and the two column writes the post-solve step makes on them
    (opf_execute, lines 105 and 141-144). */
module Tables {

  type Matrix = seq<seq<real>>

  /** Column numbers from PYPOWER's idx_bus, idx_gen and idx_brch
      (those files are not part of this model). */
  const VM: nat := 7
  const GEN_BUS: nat := 0
  const VG: nat := 5
  const MU_ANGMIN: nat := 19
  const MU_ANGMAX: nat := 20

  /** pi as the double numpy uses; the model's arithmetic on it is exact. */
  const Pi: real := 3.141592653589793

  /** numpy's `astype(int)` on a float: truncation toward zero. */
  function Trunc(v: real): int {
    if v >= 0.0 then v.Floor else -((-v).Floor)
  }

  /** A row index numpy accepts for a table of `n` rows: negative ones
      count from the end. */
  predicate ValidIndex(i: int, n: nat) { -(n as int) <= i < n }

  /** The row a valid index selects. */
  function PyIndex(i: int, n: nat): (r: int)
    ensures ValidIndex(i, n) ==> 0 <= r < n
  {
    if i < 0 then i + n else i
  }

  /** Every row of `m` has a column `c`. */
  predicate HasColumn(m: Matrix, c: nat) {
    forall r :: 0 <= r < |m| ==> c < |m[r]|
  }

  /** The two matrices have the same number of rows, row by row of the
      same length. */
  predicate SameShape(a: Matrix, b: Matrix) {
    |a| == |b| && forall r :: 0 <= r < |a| ==> |a[r]| == |b[r]|
  }

  /** What `bus[gen[:, GEN_BUS].astype(int), VM]` needs: every generator
      names a bus row that exists, and the tables have the columns read
      and written. */
  predicate GenBusesValid(gen: Matrix, bus: Matrix) {
    HasColumn(gen, VG) && HasColumn(bus, VM) &&
    forall r :: 0 <= r < |gen| ==> ValidIndex(Trunc(gen[r][GEN_BUS]), |bus|)
  }

  /** The bus row of generator `r`. */
  function BusRowOf(gen: Matrix, bus: Matrix, r: nat): (b: nat)
    requires GenBusesValid(gen, bus) && r < |gen|
    ensures b < |bus|
  {
    PyIndex(Trunc(gen[r][GEN_BUS]), |bus|)
  }

  /** Line 105: each generator's VG becomes the solved VM of its bus; no
      other entry of the generator table changes. */
  function WithGenVoltages(gen: Matrix, bus: Matrix): (g: Matrix)
    requires GenBusesValid(gen, bus)
    ensures SameShape(g, gen)
    ensures forall r :: 0 <= r < |g| ==> g[r][VG] == bus[BusRowOf(gen, bus, r)][VM]
    ensures forall r, c :: 0 <= r < |g| && 0 <= c < |g[r]| && c != VG ==> g[r][c] == gen[r][c]
  {
    seq(|gen|, r requires 0 <= r < |gen| => gen[r][VG := bus[BusRowOf(gen, bus, r)][VM]])
  }

  /** The copy-back agrees with the bus table: after it, the generator
      view of every bus voltage is the bus table's, and the bus each
      generator is attached to is the one it was attached to before. */
  lemma GenVoltagesConsistent(gen: Matrix, bus: Matrix)
    requires GenBusesValid(gen, bus)
    ensures GenBusesValid(WithGenVoltages(gen, bus), bus)
    ensures forall r :: 0 <= r < |gen| ==>
      BusRowOf(WithGenVoltages(gen, bus), bus, r) == BusRowOf(gen, bus, r) &&
      WithGenVoltages(gen, bus)[r][VG] == bus[BusRowOf(WithGenVoltages(gen, bus), bus, r)][VM]
  {
    var g := WithGenVoltages(gen, bus);
    assert VG != GEN_BUS;
    forall r | 0 <= r < |gen| ensures g[r][GEN_BUS] == gen[r][GEN_BUS] {
      assert GEN_BUS < VG < |gen[r]|;
    }
  }

  /** Row selectors `rows` that all name rows of an `n`-row table. */
  predicate ValidRows(rows: seq<int>, n: nat) {
    forall j :: 0 <= j < |rows| ==> ValidIndex(rows[j], n)
  }

  /** The set of rows selected. */
  function Selected(rows: seq<int>, n: nat): set<int> {
    set j | 0 <= j < |rows| :: PyIndex(rows[j], n)
  }

  /** `rows[j]` is the last selector naming its row, so its value is the
      one that stays. */
  predicate LastWrite(rows: seq<int>, n: nat, j: nat)
    requires j < |rows|
  {
    forall j' :: j < j' < |rows| ==> PyIndex(rows[j'], n) != PyIndex(rows[j], n)
  }

  /** numpy's `m[rows, col] = vals`: writes `vals[j]` into column `col` of
      row `rows[j]`, in order, so a row named twice keeps the later value.
      It touches only column `col` of the selected rows. */
  function WriteColumn(m: Matrix, rows: seq<int>, col: nat, vals: seq<real>): (w: Matrix)
    requires |rows| == |vals| && ValidRows(rows, |m|) && HasColumn(m, col)
    ensures SameShape(w, m) && HasColumn(w, col)
    ensures forall r, c :: 0 <= r < |m| && 0 <= c < |m[r]| && (c != col || r !in Selected(rows, |m|)) ==>
      w[r][c] == m[r][c]
    ensures forall j :: 0 <= j < |rows| && LastWrite(rows, |m|, j) ==> w[PyIndex(rows[j], |m|)][col] == vals[j]
    decreases |rows|
  {
    if rows == [] then m
    else
      var k := |rows| - 1;
      var prev := WriteColumn(m, rows[..k], col, vals[..k]);
      assert forall j :: 0 <= j < k ==> rows[..k][j] == rows[j];
      prev[PyIndex(rows[k], |m|) := prev[PyIndex(rows[k], |m|)][col := vals[k]]]
  }

  /** Distinct selectors: every write is the last one for its row. */
  predicate DistinctRows(rows: seq<int>, n: nat) {
    forall j, j' :: 0 <= j < j' < |rows| ==> PyIndex(rows[j], n) != PyIndex(rows[j'], n)
  }

  /** Lines 143-144 scale the multipliers by pi/180, from per-radian to
      per-degree units. */
  function PerDegree(v: seq<real>): (r: seq<real>)
    ensures |r| == |v|
    ensures forall i :: 0 <= i < |v| ==> r[i] == v[i] * Pi / 180.0
  {
    seq(|v|, i requires 0 <= i < |v| => v[i] * Pi / 180.0)
  }

  /** The inverse unit change, per-degree back to per-radian. */
  function PerRadian(v: seq<real>): (r: seq<real>)
    ensures |r| == |v|
    ensures forall i :: 0 <= i < |v| ==> r[i] == v[i] * 180.0 / Pi
  {
    seq(|v|, i requires 0 <= i < |v| => v[i] * 180.0 / Pi)
  }

  /** The angle-multiplier conversion is a pure change of unit: dividing
      back gives the solver's multipliers. */
  lemma PerDegreeRoundTrip(v: seq<real>)
    ensures PerRadian(PerDegree(v)) == v
  {
    var r := PerRadian(PerDegree(v));
    forall i | 0 <= i < |v| ensures r[i] == v[i] {
      assert PerDegree(v)[i] == v[i] * Pi / 180.0;
    }
  }
}
